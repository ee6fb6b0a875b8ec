/** The order of strings by code point. */
module Lexicographic {
  predicate Before(a: string, b: string) {
    if b == "" then false
    else if a == "" then true
    else if a[0] == b[0] then Before(a[1..], b[1..])
    else a[0] < b[0]
  }

  predicate AtMost(a: string, b: string) {
    !Before(b, a)
  }

  lemma {:induction false} Trichotomy(a: string, b: string)
    ensures Before(a, b) ==> !Before(b, a)
    ensures !Before(a, b) && !Before(b, a) <==> a == b
  {
    if a != "" && b != "" && a[0] == b[0] {
      Trichotomy(a[1..], b[1..]);
      assert a == [a[0]] + a[1..] && b == [b[0]] + b[1..];
    }
  }

  lemma {:induction false} Transitive(a: string, b: string, c: string)
    requires Before(a, b) && Before(b, c)
    ensures Before(a, c)
  {
    if a != "" && a[0] == b[0] && b[0] == c[0] { Transitive(a[1..], b[1..], c[1..]); }
  }

  lemma AtMostTransitive(a: string, b: string, c: string)
    requires AtMost(a, b) && AtMost(b, c)
    ensures AtMost(a, c)
  {
    Trichotomy(a, b);
    Trichotomy(b, c);
    Trichotomy(a, c);
    if a != b && b != c { Transitive(a, b, c); }
  }
}

/** Pages of a section: what a page must be, and what following its cursor yields. */
module Sections {
  import opened Wrappers
  import opened Ordering
  import opened Lexicographic

  datatype Page<T> = Page(items: seq<T>, next: Option<string>)

  datatype Item = Item(id: string, body: nat)

  type Key<!T> = T -> string

  /** `page` is a first piece of `rest`, and its cursor names its last item exactly when something is left. */
  predicate IsPage<T(==)>(rest: seq<T>, page: Page<T>, id: Key<T>) {
    var n := |page.items|;
    && page.items <= rest
    && (page.next.Some? <==> n < |rest|)
    && (page.next.Some? ==> n > 0 && page.next.value == id(rest[n - 1]))
  }

  /** Dropping items from the end, never the first one, and moving the cursor along. */
  predicate Cut<T(==)>(before: Page<T>, after: Page<T>, id: Key<T>) {
    && after.items <= before.items
    && (before.items != [] ==> after.items != [])
    && (if |after.items| == |before.items| then after.next == before.next
        else after.items != [] && after.next == Some(id(after.items[|after.items| - 1])))
  }

  lemma CutKeepsPage<T>(rest: seq<T>, before: Page<T>, after: Page<T>, id: Key<T>)
    requires IsPage(rest, before, id) && Cut(before, after, id)
    ensures IsPage(rest, after, id)
  {
    if after.items != [] { assert after.items[|after.items| - 1] == rest[|after.items| - 1]; }
  }

  lemma CutTrans<T>(a: Page<T>, b: Page<T>, c: Page<T>, id: Key<T>)
    requires Cut(a, b, id) && Cut(b, c, id)
    ensures Cut(a, c, id)
  {
  }

  function ById(): (Item, Item) -> bool {
    (a: Item, b: Item) => AtMost(a.id, b.id)
  }

  lemma ByIdTotal()
    ensures Total(ById())
  {
    var order := ById();
    forall a, b ensures order(a, b) || order(b, a) { Trichotomy(a.id, b.id); }
    forall a, b, c | order(a, b) && order(b, c) ensures order(a, c) { AtMostTransitive(a.id, b.id, c.id); }
  }

  predicate Ascending(s: seq<Item>) {
    forall i, j :: 0 <= i < j < |s| ==> Before(s[i].id, s[j].id)
  }

  predicate DistinctIds(s: seq<Item>) {
    forall i, j :: 0 <= i < j < |s| ==> s[i].id != s[j].id
  }

  /** `retain(id > cursor)`. */
  function Past(s: seq<Item>, cursor: string): seq<Item> {
    if s == [] then []
    else (if Before(cursor, s[0].id) then [s[0]] else []) + Past(s[1..], cursor)
  }

  function Inventory(items: seq<Item>): seq<Item> {
    Sort(items, ById())
  }

  lemma {:induction false} SortedDistinctAscends(s: seq<Item>, items: seq<Item>)
    requires Sorted(s, ById()) && multiset(s) == multiset(items) && DistinctIds(items)
    ensures Ascending(s)
  {
    forall i, j | 0 <= i < j < |s| ensures Before(s[i].id, s[j].id) {
      assert ById()(s[i], s[j]);
      Trichotomy(s[i].id, s[j].id);
      if s[i].id == s[j].id { TwiceMeansCollision(s, items, i, j); }
    }
  }

  lemma {:induction false} CountTwo(s: seq<Item>, i: nat, j: nat)
    requires i < j < |s| && s[i] == s[j]
    ensures multiset(s)[s[i]] >= 2
  {
    assert s == s[..j] + [s[j]] + s[j + 1..];
    assert s[..j][i] == s[i];
  }

  lemma {:induction false} DistinctOnce(items: seq<Item>, x: Item)
    requires DistinctIds(items)
    ensures multiset(items)[x] <= 1
  {
    if items != [] {
      var rest, last := items[..|items| - 1], items[|items| - 1];
      assert items == rest + [last];
      DistinctOnce(rest, x);
      if x == last { assert x !in rest; }
    }
  }

  /** Two positions with one id would show up in the original order too. */
  lemma TwiceMeansCollision(s: seq<Item>, items: seq<Item>, i: nat, j: nat)
    requires i < j < |s| && multiset(s) == multiset(items) && s[i].id == s[j].id
    ensures !DistinctIds(items)
  {
    if s[i] == s[j] {
      CountTwo(s, i, j);
      if DistinctIds(items) { DistinctOnce(items, s[i]); }
    } else {
      assert s[i] in multiset(items) && s[j] in multiset(items);
      var a :| 0 <= a < |items| && items[a] == s[i];
      var b :| 0 <= b < |items| && items[b] == s[j];
    }
  }

  lemma InventoryAscends(items: seq<Item>)
    requires DistinctIds(items)
    ensures Ascending(Inventory(items)) && multiset(Inventory(items)) == multiset(items)
  {
    ByIdTotal();
    SortSorts(items, ById());
    SortedDistinctAscends(Inventory(items), items);
  }

  lemma {:induction false} PastAll(s: seq<Item>, cursor: string)
    requires forall i :: 0 <= i < |s| ==> Before(cursor, s[i].id)
    ensures Past(s, cursor) == s
  {
    if s != [] { PastAll(s[1..], cursor); }
  }

  /** In an ascending section the items past its k-th id are those after position k. */
  lemma {:induction false} PastPosition(s: seq<Item>, k: nat)
    requires Ascending(s) && k < |s|
    ensures Past(s, s[k].id) == s[k + 1..]
    decreases k
  {
    Trichotomy(s[0].id, s[k].id);
    if k == 0 {
      PastAll(s[1..], s[0].id);
    } else {
      assert s[1..][k - 1] == s[k];
      PastPosition(s[1..], k - 1);
      assert s[1..][k..] == s[k + 1..];
    }
  }

  /** Where the items past a cursor begin. */
  lemma {:induction false} PastIsSuffix(s: seq<Item>, cursor: string) returns (k: nat)
    requires Ascending(s)
    ensures k <= |s| && Past(s, cursor) == s[k..]
    ensures forall i :: 0 <= i < |s| ==> (Before(cursor, s[i].id) <==> k <= i)
  {
    if s == [] {
      k := 0;
    } else if Before(cursor, s[0].id) {
      forall i | 0 <= i < |s| ensures Before(cursor, s[i].id) {
        if i > 0 { Transitive(cursor, s[0].id, s[i].id); }
      }
      PastAll(s, cursor);
      k := 0;
    } else {
      var rest := PastIsSuffix(s[1..], cursor);
      k := rest + 1;
      assert s[1..][rest..] == s[k..];
      forall i | 0 <= i < |s| ensures Before(cursor, s[i].id) <==> k <= i {
        if i > 0 { assert s[i] == s[1..][i - 1]; }
      }
    }
  }

  function Id(): Key<Item> {
    (item: Item) => item.id
  }

  /** What is left after a page is what lies past its cursor. */
  lemma NextPageContinues(s: seq<Item>, cursor: string, page: Page<Item>)
    requires Ascending(s) && IsPage(Past(s, cursor), page, Id()) && page.next.Some?
    ensures Past(s, page.next.value) == Past(s, cursor)[|page.items|..]
    ensures |Past(s, page.next.value)| < |Past(s, cursor)|
  {
    var k := PastIsSuffix(s, cursor);
    var n := |page.items|;
    assert Past(s, cursor)[n - 1] == s[k + n - 1];
    PastPosition(s, k + n - 1);
    assert s[k..][n..] == s[k + n..];
  }

  /** Pages fetched one after another, each with the cursor of the one before, until there is none. */
  ghost predicate Walk(s: seq<Item>, cursor: string, pages: seq<Page<Item>>)
    decreases |pages|
  {
    && pages != []
    && IsPage(Past(s, cursor), pages[0], Id())
    && match pages[0].next
       case None => |pages| == 1
       case Some(next) => Walk(s, next, pages[1..])
  }

  function Flatten(pages: seq<Page<Item>>): seq<Item> {
    if pages == [] then [] else pages[0].items + Flatten(pages[1..])
  }

  lemma FirstThenRest(rest: seq<Item>, page: Page<Item>, others: seq<Item>)
    requires IsPage(rest, page, Id()) && others == if page.next.Some? then rest[|page.items|..] else []
    ensures page.items + others == rest
  {
  }

  lemma {:induction false} WalkCovers(s: seq<Item>, cursor: string, pages: seq<Page<Item>>)
    requires Ascending(s) && Walk(s, cursor, pages)
    ensures Flatten(pages) == Past(s, cursor)
    decreases |pages|
  {
    var page, others := pages[0], pages[1..];
    if page.next.Some? {
      NextPageContinues(s, cursor, page);
      WalkCovers(s, page.next.value, others);
    } else {
      assert others == [];
    }
    FirstThenRest(Past(s, cursor), page, Flatten(others));
  }

  /** Every page but possibly the first of an empty section brings something new, so the walk ends. */
  lemma {:induction false} WalkIsShort(s: seq<Item>, cursor: string, pages: seq<Page<Item>>)
    requires Ascending(s) && Walk(s, cursor, pages)
    ensures |pages| <= 1 || |pages| <= |Past(s, cursor)|
    decreases |pages|
  {
    var page := pages[0];
    if page.next.Some? {
      NextPageContinues(s, cursor, page);
      assert |Past(s, page.next.value)| > 0;
      WalkIsShort(s, page.next.value, pages[1..]);
    }
  }

  /**
   Whatever limits and byte budgets the pages of a section were cut to, following the cursors
   from the empty one yields every item exactly once, in id order.
  */
  lemma WalkYieldsInventory(items: seq<Item>, pages: seq<Page<Item>>)
    requires DistinctIds(items) && (forall i :: 0 <= i < |items| ==> items[i].id != "")
    requires Walk(Inventory(items), "", pages)
    ensures Flatten(pages) == Inventory(items) && Ascending(Flatten(pages)) && multiset(Flatten(pages)) == multiset(items)
  {
    var s := Inventory(items);
    InventoryAscends(items);
    forall i | 0 <= i < |s| ensures Before("", s[i].id) {
      assert s[i] in multiset(s);
      assert s[i] in items;
    }
    PastAll(s, "");
    WalkCovers(s, "", pages);
  }

  /** The reason ids may not be empty: the first cursor already passes over an item without one. */
  lemma {:induction false} EmptyIdIsNeverListed(s: seq<Item>, cursor: string, body: nat)
    ensures Item("", body) !in Past(s, cursor)
  {
    if s != [] { EmptyIdIsNeverListed(s[1..], cursor, body); }
  }
}

/** The environment view: its sections are paged by id and bounded by bytes. */
module EnvironmentPaging {
  import opened Wrappers
  import opened Ordering
  import opened Lexicographic
  import opened Sections

  datatype Workload = Workload(component: Option<string>, tag: nat)

  datatype Demand = Demand(workloads: seq<Workload>, storage: seq<Workload>)

  datatype Cell = Cell(id: string, components: Page<Item>, links: Page<Item>, sessions: Page<Item>, activity: Page<Item>,
                       resources: Option<Demand>)

  type View = Page<Cell>

  datatype Outcome = Fits | ItemTooLarge

  function CellId(): Key<Cell> {
    (cell: Cell) => cell.id
  }

  /** Keep `limit` items, and name the last of them if there were more. */
  method Truncate(found: seq<Item>, limit: nat, ghost all: seq<Item>) returns (page: Page<Item>)
    requires limit > 0 && found <= all && (|found| <= limit ==> found == all)
    ensures IsPage(all, page, Id()) && |page.items| == if |found| < limit then |found| else limit
  {
    var next := if |found| > limit then Some(found[limit - 1].id) else None;
    page := Page(if |found| > limit then found[..limit] else found, next);
  }

  lemma PastStep(s: seq<Item>, i: nat, cursor: string)
    requires i < |s|
    ensures Past(s[i..], cursor) == (if Before(cursor, s[i].id) then [s[i]] else []) + Past(s[i + 1..], cursor)
  {
    assert s[i..][0] == s[i] && s[i..][1..] == s[i + 1..];
  }

  lemma Moves(kept: seq<Item>, step: seq<Item>, rest: seq<Item>)
    ensures kept + (step + rest) == (kept + step) + rest
  {
  }

  method Retain(sorted: seq<Item>, cursor: string) returns (kept: seq<Item>)
    ensures kept == Past(sorted, cursor)
  {
    kept := [];
    var i := 0;
    ghost var rest := Past(sorted, cursor);
    assert sorted[0..] == sorted;
    while i < |sorted|
      invariant i <= |sorted| && rest == Past(sorted[i..], cursor)
      invariant kept + rest == Past(sorted, cursor)
    {
      PastStep(sorted, i, cursor);
      var step := if Before(cursor, sorted[i].id) then [sorted[i]] else [];
      rest := Past(sorted[i + 1..], cursor);
      Moves(kept, step, rest);
      kept := kept + step;
      i := i + 1;
    }
    assert sorted[i..] == [];
  }

  /** Sort, drop what the cursor passed, and keep `limit` items. */
  method SectionPage(items: seq<Item>, cursor: string, limit: nat) returns (page: Page<Item>)
    requires limit > 0
    ensures IsPage(Past(Inventory(items), cursor), page, Id())
    ensures |page.items| == if |Past(Inventory(items), cursor)| < limit then |Past(Inventory(items), cursor)| else limit
  {
    var kept := Retain(Sort(items, ById()), cursor);
    page := Truncate(kept, limit, kept);
  }

  /** Live cells that also have a record. */
  function Tracked(live: seq<Item>, recorded: string -> bool): seq<Item> {
    if live == [] then []
    else (if recorded(live[0].id) then [live[0]] else []) + Tracked(live[1..], recorded)
  }

  lemma TrackedStep(live: seq<Item>, i: nat, recorded: string -> bool, cursor: string)
    requires i < |live|
    ensures Past(Tracked(live[i..], recorded), cursor)
         == (if Before(cursor, live[i].id) && recorded(live[i].id) then [live[i]] else [])
            + Past(Tracked(live[i + 1..], recorded), cursor)
  {
    assert live[i..][0] == live[i] && live[i..][1..] == live[i + 1..];
    var rest := Tracked(live[i + 1..], recorded);
    var all := [live[i]] + rest;
    assert all[0] == live[i] && all[1..] == rest;
    assert Tracked(live[i..], recorded) == if recorded(live[i].id) then all else rest;
    assert Past(all, cursor) == (if Before(cursor, live[i].id) then [live[i]] else []) + Past(rest, cursor);
  }

  /** The recorded live cells keep their order, so `WalkCovers` applies to them. */
  lemma {:induction false} TrackedAscends(live: seq<Item>, recorded: string -> bool)
    requires Ascending(live)
    ensures Ascending(Tracked(live, recorded))
    ensures forall x :: x in Tracked(live, recorded) <==> x in live && recorded(x.id)
  {
    if live != [] {
      TrackedAscends(live[1..], recorded);
      assert live == [live[0]] + live[1..];
      var rest := Tracked(live[1..], recorded);
      forall j | 0 <= j < |rest| ensures Before(live[0].id, rest[j].id) {
        assert rest[j] in live[1..];
      }
    }
  }

  /** Look records up in id order until one more than the limit is found. */
  method LookUp(live: seq<Item>, cursor: string, limit: nat, recorded: string -> bool)
    returns (entries: seq<Item>, ghost rest: seq<Item>)
    ensures entries + rest == Past(Tracked(live, recorded), cursor)
    ensures |entries| <= limit + 1 && (|entries| <= limit ==> rest == [])
  {
    entries := [];
    var i := 0;
    rest := Past(Tracked(live, recorded), cursor);
    assert live[0..] == live;
    while i < |live| && |entries| <= limit
      invariant i <= |live| && |entries| <= limit + 1
      invariant rest == Past(Tracked(live[i..], recorded), cursor)
      invariant entries + rest == Past(Tracked(live, recorded), cursor)
    {
      TrackedStep(live, i, recorded, cursor);
      var step := if Before(cursor, live[i].id) && recorded(live[i].id) then [live[i]] else [];
      rest := Past(Tracked(live[i + 1..], recorded), cursor);
      Moves(entries, step, rest);
      entries := entries + step;
      i := i + 1;
    }
    if |entries| <= limit { assert live[i..] == []; }
  }

  /** The cells of one page. */
  method CellsPage(live: seq<Item>, cursor: string, limit: nat, recorded: string -> bool) returns (page: Page<Item>)
    requires limit > 0
    ensures IsPage(Past(Tracked(live, recorded), cursor), page, Id()) && |page.items| <= limit
  {
    var entries, rest := LookUp(live, cursor, limit, recorded);
    page := Truncate(entries, limit, entries + rest);
  }

  predicate Kept(w: Workload, components: seq<Item>) {
    w.component.None? || exists i :: 0 <= i < |components| && components[i].id == w.component.value
  }

  function Keep(ws: seq<Workload>, components: seq<Item>): seq<Workload> {
    if ws == [] then []
    else (if Kept(ws[0], components) then [ws[0]] else []) + Keep(ws[1..], components)
  }

  function Filtered(resources: Option<Demand>, components: Page<Item>): Option<Demand> {
    match resources
    case None => None
    case Some(d) => Some(Demand(Keep(d.workloads, components.items), Keep(d.storage, components.items)))
  }

  lemma {:induction false} KeepTwice(ws: seq<Workload>, many: seq<Item>, few: seq<Item>)
    requires few <= many
    ensures Keep(Keep(ws, many), few) == Keep(ws, few)
  {
    if ws != [] {
      KeepTwice(ws[1..], many, few);
      assert Kept(ws[0], few) ==> Kept(ws[0], many);
      var kept := [ws[0]] + Keep(ws[1..], many);
      assert kept[0] == ws[0] && kept[1..] == Keep(ws[1..], many);
      assert Keep(ws, many) == if Kept(ws[0], many) then kept else Keep(ws[1..], many);
      assert Keep(kept, few) == (if Kept(ws[0], few) then [ws[0]] else []) + Keep(ws[1..], few);
      assert Keep(ws, few) == (if Kept(ws[0], few) then [ws[0]] else []) + Keep(ws[1..], few);
    }
  }

  /** Drop the last of at least two items. */
  method Shorten<T>(page: Page<T>, id: Key<T>) returns (shorter: Page<T>, changed: bool)
    ensures changed <==> |page.items| >= 2
    ensures !changed ==> shorter == page
    ensures changed ==> shorter == Page(page.items[..|page.items| - 1], Some(id(page.items[|page.items| - 2])))
    ensures Cut(page, shorter, id)
  {
    if |page.items| < 2 { return page, false; }
    var items := page.items[..|page.items| - 1];
    return Page(items, Some(id(items[|items| - 1]))), true;
  }

  ghost predicate SectionsCut(before: Cell, after: Cell) {
    && after.id == before.id
    && Cut(before.components, after.components, Id()) && Cut(before.links, after.links, Id())
    && Cut(before.sessions, after.sessions, Id()) && Cut(before.activity, after.activity, Id())
  }

  /** A cell whose sections were cut; its demand then only names components still listed. */
  ghost predicate Trimmed(before: Cell, after: Cell) {
    && SectionsCut(before, after)
    && (after.resources == before.resources || after.resources == Filtered(before.resources, after.components))
    && (after.components != before.components ==> after.resources == Filtered(before.resources, after.components))
  }

  lemma TrimmedTrans(a: Cell, b: Cell, c: Cell)
    requires Trimmed(a, b) && SectionsCut(b, c) && c.resources == Filtered(b.resources, c.components)
    ensures Trimmed(a, c)
  {
    CutTrans(a.components, b.components, c.components, Id());
    CutTrans(a.links, b.links, c.links, Id());
    CutTrans(a.sessions, b.sessions, c.sessions, Id());
    CutTrans(a.activity, b.activity, c.activity, Id());
    if a.resources.Some? {
      KeepTwice(a.resources.value.workloads, b.components.items, c.components.items);
      KeepTwice(a.resources.value.storage, b.components.items, c.components.items);
    }
  }

  function Weight(cell: Cell): nat {
    |cell.components.items| + |cell.links.items| + |cell.sessions.items| + |cell.activity.items|
  }

  predicate Shortenable(cell: Cell) {
    |cell.components.items| >= 2 || |cell.links.items| >= 2 || |cell.sessions.items| >= 2 || |cell.activity.items| >= 2
  }

  /** Shorten every section of the only cell left, by one item each. */
  method ShortenCell(cell: Cell) returns (shorter: Cell, changed: bool)
    ensures changed <==> Shortenable(cell)
    ensures SectionsCut(cell, shorter) && shorter.resources == Filtered(cell.resources, shorter.components)
    ensures if changed then Weight(shorter) < Weight(cell) else shorter == cell.(resources := Filtered(cell.resources, cell.components))
  {
    var activity, a := Shorten(cell.activity, Id());
    var sessions, s := Shorten(cell.sessions, Id());
    var links, l := Shorten(cell.links, Id());
    var components, c := Shorten(cell.components, Id());
    changed := a || s || l || c;
    shorter := Cell(cell.id, components, links, sessions, activity, Filtered(cell.resources, components));
  }

  /** What bounding may do to a view: drop cells from the end, and trim the first when it is the last one left. */
  ghost predicate Bounded(before: View, after: View) {
    && |after.items| <= |before.items| && (before.items != [] ==> after.items != [])
    && (|after.items| != 1 ==> after.items <= before.items)
    && (|after.items| == 1 ==> Trimmed(before.items[0], after.items[0]))
    && (if |after.items| == |before.items| then after.next == before.next
        else after.next == Some(before.items[|after.items| - 1].id))
  }

  function Remaining(view: View): nat {
    if view.items == [] then 0 else |view.items| + Weight(view.items[0])
  }

  lemma TrimmedSelf(cell: Cell)
    ensures Trimmed(cell, cell)
  {
  }

  /** A cell fits on its own, however it is cut, once none of its sections can be shortened. */
  ghost predicate SmallestFits(cell: Cell, next: Option<string>, size: View -> nat, maximum: nat) {
    forall c: Cell :: Trimmed(cell, c) && !Shortenable(c) ==> size(Page([c], next)) <= maximum
  }

  lemma StillTooLarge(view: View, bounded: View, size: View -> nat, maximum: nat)
    requires Bounded(view, bounded) && |bounded.items| == 1 && !Shortenable(bounded.items[0]) && size(bounded) > maximum
    ensures !SmallestFits(view.items[0], bounded.next, size, maximum)
  {
    assert bounded == Page([bounded.items[0]], bounded.next);
  }

  /** The view with its first k cells. */
  function FirstCells(view: View, k: nat): View
    requires 0 < k <= |view.items|
  {
    if k == |view.items| then view else Page(view.items[..k], Some(view.items[k - 1].id))
  }

  /**
   `bound_page_bytes`, for any measure of the serialized size. It ends with a view that fits,
   one without cells, or the error that a single item is too large; on the way it only ever
   drops items from the ends of pages, with each cursor naming the last item kept, and it
   drops no cell that could have stayed.
  */
  method BoundPageBytes(view: View, size: View -> nat, maximum: nat) returns (outcome: Outcome, bounded: View)
    ensures Bounded(view, bounded)
    ensures outcome == Fits ==> size(bounded) <= maximum || bounded.items == []
    ensures outcome == ItemTooLarge ==>
              && |bounded.items| == 1 && !Shortenable(bounded.items[0])
              && !SmallestFits(view.items[0], bounded.next, size, maximum)
    ensures size(view) <= maximum ==> bounded == view && outcome == Fits
    ensures forall k :: |bounded.items| < k <= |view.items| ==> size(FirstCells(view, k)) > maximum
    ensures |bounded.items| > 1 ==> bounded == FirstCells(view, |bounded.items|)
  {
    bounded := view;
    if view.items != [] { TrimmedSelf(view.items[0]); }
    while size(bounded) > maximum
      invariant Bounded(view, bounded) && (bounded == view || size(view) > maximum)
      invariant forall k :: |bounded.items| < k <= |view.items| ==> size(FirstCells(view, k)) > maximum
      invariant |bounded.items| > 1 ==> bounded == FirstCells(view, |bounded.items|)
      decreases Remaining(bounded)
    {
      var cells, dropped := Shorten(bounded, CellId());
      if dropped {
        if |cells.items| == 1 { TrimmedSelf(view.items[0]); }
        bounded := cells;
        continue;
      }
      if |bounded.items| == 0 { break; }
      var cell, changed := ShortenCell(bounded.items[0]);
      TrimmedTrans(view.items[0], bounded.items[0], cell);
      if !changed { StillTooLarge(view, bounded, size, maximum); }
      bounded := Page([cell], bounded.next);
      if !changed { return ItemTooLarge, bounded; }
    }
    return Fits, bounded;
  }

  // ---------------------------------------------------------------- from end to end

  /** One fetch of a walk moves on: what was collected and what lies past the cursor are the whole section. */
  lemma WalkMovesOn(s: seq<Item>, cursor: string, full: Page<Item>, page: Page<Item>, collected: seq<Item>)
    requires Ascending(s) && IsPage(Past(s, cursor), full, Id()) && Cut(full, page, Id())
    requires collected + Past(s, cursor) == s
    ensures page.next.Some? ==>
              && collected + page.items + Past(s, page.next.value) == s
              && |Past(s, page.next.value)| < |Past(s, cursor)|
    ensures page.next.None? ==> collected + page.items == s
  {
    CutKeepsPage(Past(s, cursor), full, page, Id());
    if page.next.Some? {
      NextPageContinues(s, cursor, page);
      Moves(collected, page.items, Past(s, page.next.value));
    }
  }

  lemma PastEmptyCursor(s: seq<Item>)
    requires forall i :: 0 <= i < |s| ==> s[i].id != ""
    ensures Past(s, "") == s
  {
    PastAll(s, "");
  }

  ghost predicate AnswersFit(items: seq<Item>, others: nat -> Cell, size: View -> nat, maximum: nat) {
    forall n: nat, cursor: string, page: Page<Item> :: IsPage(Past(Inventory(items), cursor), page, Id()) ==>
      SmallestFits(others(n).(components := page), None, size, maximum)
  }

  /**
   Reading one section of a cell request by request, each page built by `section_page` and then
   cut by `bound_page_bytes` together with whatever else the answer holds: what was read is the
   whole section, in id order, and it is read unless some answer cannot be cut until it fits.
  */
  method ReadComponents(items: seq<Item>, limit: nat -> nat, others: nat -> Cell, size: View -> nat, maximum: nat)
    returns (read: Option<seq<Item>>)
    requires DistinctIds(items) && (forall i :: 0 <= i < |items| ==> items[i].id != "")
    requires forall n: nat :: limit(n) >= 1
    ensures read.Some? ==> read.value == Inventory(items)
    ensures AnswersFit(items, others, size, maximum) ==> read.Some?
  {
    ghost var s := Inventory(items);
    InventoryAscends(items);
    forall i | 0 <= i < |s| ensures s[i].id != "" { assert s[i] in multiset(s); assert s[i] in items; }
    PastEmptyCursor(s);
    var collected: seq<Item> := [];
    var cursor, n := "", 0;
    while true
      invariant collected + Past(s, cursor) == s
      decreases |Past(s, cursor)|
    {
      var full := SectionPage(items, cursor, limit(n));
      var cell := others(n).(components := full);
      var outcome, bounded := BoundPageBytes(Page([cell], None), size, maximum);
      if outcome == ItemTooLarge { return None; }
      var page := bounded.items[0].components;
      WalkMovesOn(s, cursor, full, page, collected);
      collected := collected + page.items;
      if page.next.None? { return Some(collected); }
      cursor, n := page.next.value, n + 1;
    }
  }

  function CellIds(cells: seq<Cell>): seq<string> {
    seq(|cells|, i requires 0 <= i < |cells| => cells[i].id)
  }

  function ItemIds(items: seq<Item>): seq<string> {
    seq(|items|, i requires 0 <= i < |items| => items[i].id)
  }

  /** Bounding a view of cells cuts the page of ids it was built from. */
  lemma BoundedCutsIds(full: Page<Item>, view: View, bounded: View)
    requires view.next == full.next && CellIds(view.items) == ItemIds(full.items) && Bounded(view, bounded)
    ensures |bounded.items| <= |full.items|
    ensures Cut(full, Page(full.items[..|bounded.items|], bounded.next), Id())
    ensures CellIds(bounded.items) == ItemIds(full.items[..|bounded.items|])
  {
    assert |view.items| == |CellIds(view.items)| == |full.items|;
    forall i | 0 <= i < |bounded.items| ensures bounded.items[i].id == full.items[i].id {
      assert CellIds(view.items)[i] == ItemIds(full.items)[i];
      if |bounded.items| == 1 { assert Trimmed(view.items[0], bounded.items[0]); } else { assert bounded.items[i] == view.items[i]; }
    }
    if |bounded.items| < |full.items| {
      assert CellIds(view.items)[|bounded.items| - 1] == ItemIds(full.items)[|bounded.items| - 1];
    }
  }

  ghost predicate CellsFit(s: seq<Item>, build: Item -> Cell, size: View -> nat, maximum: nat) {
    forall item: Item, next: Option<string> :: item in s ==> SmallestFits(build(item), next, size, maximum)
  }

  /** One request for cells: the ids it answers with, and where the next one starts. */
  method CellsRequest(live: seq<Item>, recorded: string -> bool, build: Item -> Cell, cursor: string, limit: nat,
                      size: View -> nat, maximum: nat, ghost collected: seq<Item>)
    returns (reply: Option<(seq<string>, Option<string>)>, ghost page: Page<Item>)
    requires Ascending(Tracked(live, recorded)) && limit > 0 && forall item :: build(item).id == item.id
    requires collected + Past(Tracked(live, recorded), cursor) == Tracked(live, recorded)
    ensures reply.Some? ==>
              var s := Tracked(live, recorded);
              && reply.value == (ItemIds(page.items), page.next)
              && (page.next.None? ==> collected + page.items == s)
              && (page.next.Some? ==>
                    && collected + page.items + Past(s, page.next.value) == s
                    && |Past(s, page.next.value)| < |Past(s, cursor)|)
    ensures CellsFit(Tracked(live, recorded), build, size, maximum) ==> reply.Some?
  {
    var full := CellsPage(live, cursor, limit, recorded);
    var view: View := Page(seq(|full.items|, i requires 0 <= i < |full.items| => build(full.items[i])), full.next);
    assert CellIds(view.items) == ItemIds(full.items);
    var outcome, bounded := BoundPageBytes(view, size, maximum);
    if outcome == ItemTooLarge {
      assert full.items[0] in Past(Tracked(live, recorded), cursor);
      assert !SmallestFits(build(full.items[0]), bounded.next, size, maximum);
    }
    BoundedCutsIds(full, view, bounded);
    page := Page(full.items[..|bounded.items|], bounded.next);
    WalkMovesOn(Tracked(live, recorded), cursor, full, page, collected);
    reply := if outcome == ItemTooLarge then None else Some((CellIds(bounded.items), bounded.next));
  }

  lemma ItemIdsJoin(a: seq<Item>, b: seq<Item>)
    ensures ItemIds(a + b) == ItemIds(a) + ItemIds(b)
  {
  }

  /** The same for the cells themselves: every live cell with a record is read once, in id order. */
  method ReadCells(live: seq<Item>, recorded: string -> bool, build: Item -> Cell, limit: nat -> nat,
                   size: View -> nat, maximum: nat)
    returns (read: Option<seq<string>>)
    requires Ascending(live) && (forall i :: 0 <= i < |live| ==> live[i].id != "")
    requires (forall n: nat :: limit(n) >= 1) && forall item :: build(item).id == item.id
    ensures read.Some? ==> read.value == ItemIds(Tracked(live, recorded))
    ensures CellsFit(Tracked(live, recorded), build, size, maximum) ==> read.Some?
  {
    ghost var s := Tracked(live, recorded);
    TrackedAscends(live, recorded);
    forall i | 0 <= i < |s| ensures s[i].id != "" { assert s[i] in live; }
    PastEmptyCursor(s);
    ghost var collected: seq<Item> := [];
    var ids: seq<string> := [];
    var cursor, n := "", 0;
    while true
      invariant collected + Past(s, cursor) == s && ids == ItemIds(collected)
      decreases |Past(s, cursor)|
    {
      var reply, page := CellsRequest(live, recorded, build, cursor, limit(n), size, maximum, collected);
      if reply.None? { return None; }
      ItemIdsJoin(collected, page.items);
      collected := collected + page.items;
      ids := ids + reply.value.0;
      if reply.value.1.None? { return Some(ids); }
      cursor, n := reply.value.1.value, n + 1;
    }
  }
}

/** Decimal numbers, and splitting a string at a separator's last occurrence. */
module Text {
  import opened Wrappers

  function Digit(d: nat): char
    requires d < 10
  {
    "0123456789"[d]
  }

  predicate IsDigit(c: char) {
    '0' <= c <= '9'
  }

  function Print(n: nat): string {
    if n < 10 then [Digit(n)] else Print(n / 10) + [Digit(n % 10)]
  }

  function Digits(s: string): Option<nat> {
    if s == "" then Some(0)
    else
      var before, last := Digits(s[..|s| - 1]), s[|s| - 1];
      if before.None? || !IsDigit(last) then None else Some(before.value * 10 + (last as int - '0' as int))
  }

  const USIZE := 0x1_0000_0000_0000_0000

  /** `str::parse::<usize>`: an optional plus sign, at least one digit, no overflow. */
  function Parse(s: string): Option<nat> {
    var digits := if s != "" && s[0] == '+' then s[1..] else s;
    if digits == "" then None
    else if Digits(digits).Some? && Digits(digits).value < USIZE then Digits(digits) else None
  }

  lemma {:induction false} PrintDigits(n: nat)
    ensures Digits(Print(n)) == Some(n) && Print(n) != ""
    ensures forall i :: 0 <= i < |Print(n)| ==> IsDigit(Print(n)[i])
  {
    if n < 10 {
      assert Print(n)[..0] == "";
    } else {
      PrintDigits(n / 10);
      assert Print(n)[..|Print(n)| - 1] == Print(n / 10);
    }
  }

  lemma ParseInvertsPrint(n: nat)
    requires n < USIZE
    ensures Parse(Print(n)) == Some(n) && forall i :: 0 <= i < |Print(n)| ==> Print(n)[i] != ':'
  {
    PrintDigits(n);
    assert IsDigit(Print(n)[0]);
  }

  lemma {:induction false} PrintLength(n: nat, k: nat)
    requires k > 0 && n < Power(k)
    ensures |Print(n)| <= k
  {
    if n >= 10 { PrintLength(n / 10, k - 1); }
  }

  function Power(k: nat): nat {
    if k == 0 then 1 else 10 * Power(k - 1)
  }

  lemma UsizeLength(n: nat)
    requires n < USIZE
    ensures |Print(n)| <= 20
  {
    assert Power(5) == 100000;
    assert Power(10) == 10000000000 by { assert Power(7) == 10000000; }
    assert Power(15) == 1000000000000000 by { assert Power(12) == 1000000000000; }
    assert Power(20) == 100000000000000000000 by { assert Power(17) == 100000000000000000; }
    PrintLength(n, 20);
  }

  /** `rsplit_once`. */
  function SplitLast(s: string, separator: char): Option<(string, string)> {
    if s == "" then None
    else if s[|s| - 1] == separator then Some((s[..|s| - 1], ""))
    else
      match SplitLast(s[..|s| - 1], separator)
      case None => None
      case Some((before, after)) => Some((before, after + [s[|s| - 1]]))
  }

  lemma {:induction false} SplitJoined(before: string, separator: char, after: string)
    requires forall i :: 0 <= i < |after| ==> after[i] != separator
    ensures SplitLast(before + [separator] + after, separator) == Some((before, after))
    decreases |after|
  {
    var s := before + [separator] + after;
    if after == "" {
      assert s[..|s| - 1] == before;
    } else {
      var shorter, last := after[..|after| - 1], after[|after| - 1];
      SplitJoined(before, separator, shorter);
      assert s[..|s| - 1] == before + [separator] + shorter && s[|s| - 1] == last;
      assert after == shorter + [last];
    }
  }
}

/** The catalog list: entries filtered, sorted and paged by an offset bound to the query. */
module CatalogPaging {
  import opened Wrappers
  import opened Ordering
  import opened Text

  datatype Failure = QueryInvalid | CursorInvalid | TooLarge | Unmeasurable

  const CURSOR_LIMIT := 256
  const PAGE_LIMIT := 50

  /** A page being filled in place. */
  class CatalogPage<T> {
    var items: seq<T>
    var next: Option<string>

    constructor ()
      ensures items == [] && next == None
    {
      items, next := [], None;
    }

    /** `push_bounded`: append and measure; take both back unless the whole page fits. */
    method PushBounded(item: T, cursor: Option<string>, fits: (seq<T>, Option<string>) -> Option<bool>)
      returns (accepted: Option<bool>)
      modifies this
      ensures accepted == fits(old(items) + [item], cursor)
      ensures if accepted == Some(true) then items == old(items) + [item] && next == cursor
              else items == old(items) && next == old(next)
    {
      items := items + [item];
      var previous := next;
      next := cursor;
      accepted := fits(items, next);
      if accepted != Some(true) {
        items := items[..|items| - 1];
        next := previous;
      }
    }
  }

  /** The entries a query selects, in (id, version) order. */
  function Select<T>(entries: seq<T>, selects: T -> bool): seq<T> {
    if entries == [] then []
    else (if selects(entries[0]) then [entries[0]] else []) + Select(entries[1..], selects)
  }

  function Matched<T>(entries: seq<T>, selects: T -> bool, order: (T, T) -> bool): seq<T> {
    Sort(Select(entries, selects), order)
  }

  function CursorAt(identity: string, offset: nat): string {
    identity + ":" + Print(offset)
  }

  /** The offset a cursor stands for, if it is bound to this identity and points at an entry. */
  function Offset(cursor: Option<string>, identity: string, count: nat): Result<nat, Failure> {
    match cursor
    case None => Ok(0)
    case Some(text) =>
      if |text| > CURSOR_LIMIT then Err(QueryInvalid)
      else
        match SplitLast(text, ':')
        case None => Err(CursorInvalid)
        case Some((bound, digits)) =>
          if bound != identity || Parse(digits).None? || Parse(digits).value >= count then Err(CursorInvalid)
          else Ok(Parse(digits).value)
  }

  /** A cursor the list emits is accepted by the same query. */
  lemma EmittedCursorIsAccepted(identity: string, offset: nat, count: nat)
    requires offset < count <= USIZE && |identity| + 21 <= CURSOR_LIMIT
    ensures Offset(Some(CursorAt(identity, offset)), identity, count) == Ok(offset)
  {
    ParseInvertsPrint(offset);
    UsizeLength(offset);
    SplitJoined(identity, ':', Print(offset));
  }

  /** A cursor that was emitted for another catalog, query, platform or scope is refused. */
  lemma ForeignCursorIsRefused(identity: string, other: string, offset: nat, count: nat)
    requires identity != other && offset < USIZE
    ensures Offset(Some(CursorAt(other, offset)), identity, count).Err?
  {
    ParseInvertsPrint(offset);
    SplitJoined(other, ':', Print(offset));
  }

  function Clamp(limit: nat): nat {
    if limit < 1 then 1 else if limit > PAGE_LIMIT then PAGE_LIMIT else limit
  }

  datatype Listing<T> = Listing(items: seq<T>, next: Option<string>)

  /** A page holds the entries from an offset on, at least one if there is any, and a cursor to the first it leaves out. */
  predicate IsListing<T(==), U(==)>(matched: seq<T>, show: T -> U, identity: string, offset: nat, page: Listing<U>) {
    var n := |page.items|;
    && offset + n <= |matched|
    && (forall i :: 0 <= i < n ==> page.items[i] == show(matched[offset + i]))
    && (offset < |matched| ==> n > 0)
    && page.next == if offset + n < |matched| then Some(CursorAt(identity, offset + n)) else None
  }

  /** The cursor of a page that ends before `index`. */
  function CursorBefore(identity: string, index: nat, count: nat): Option<string> {
    if index < count then Some(CursorAt(identity, index)) else None
  }

  /** A page that is neither full nor last ends there because one more entry did not fit. */
  predicate StoppedForSize<T, U(==)>(matched: seq<T>, show: T -> U, identity: string, offset: nat, limit: nat, page: Listing<U>,
                                     fits: (seq<U>, Option<string>) -> Option<bool>) {
    var end := offset + |page.items|;
    |page.items| < Clamp(limit) && end < |matched| ==>
      fits(page.items + [show(matched[end])], CursorBefore(identity, end + 1, |matched|)) == Some(false)
  }

  /** `list_scoped_with_limits`, on the selected entries; `show` is the projection a query asks for. */
  method List<T, U(==)>(matched: seq<T>, show: T -> U, identity: string, cursor: Option<string>, limit: nat,
                        fits: (seq<U>, Option<string>) -> Option<bool>)
    returns (r: Result<Listing<U>, Failure>)
    requires |matched| <= USIZE
    ensures Offset(cursor, identity, |matched|).Err? ==> r.Err? && r.error == Offset(cursor, identity, |matched|).error
    ensures Offset(cursor, identity, |matched|).Ok? && r.Ok? ==>
              && IsListing(matched, show, identity, Offset(cursor, identity, |matched|).value, r.value)
              && |r.value.items| <= Clamp(limit)
              && StoppedForSize(matched, show, identity, Offset(cursor, identity, |matched|).value, limit, r.value, fits)
              && (r.value.items != [] ==> fits(r.value.items, r.value.next) == Some(true))
    ensures Offset(cursor, identity, |matched|).Ok? && r.Err? ==> matched != []
  {
    var start := Offset(cursor, identity, |matched|);
    if start.Err? { return Err(start.error); }
    var offset := start.value;
    var page := new CatalogPage<U>();
    var index := offset;
    while index < |matched| && index < offset + Clamp(limit)
      invariant offset <= index <= |matched| && index - offset <= Clamp(limit) && |page.items| == index - offset
      invariant forall i :: 0 <= i < |page.items| ==> page.items[i] == show(matched[offset + i])
      invariant index > offset ==> page.next == if index < |matched| then Some(CursorAt(identity, index)) else None
      invariant index > offset ==> fits(page.items, page.next) == Some(true)
      invariant index == offset ==> page.next == None
    {
      var next := CursorBefore(identity, index + 1, |matched|);
      var accepted := page.PushBounded(show(matched[index]), next, fits);
      if accepted.None? { return Err(Unmeasurable); }
      if !accepted.value {
        if page.items == [] { return Err(TooLarge); }
        return Ok(Listing(page.items, page.next));
      }
      index := index + 1;
    }
    return Ok(Listing(page.items, page.next));
  }

  /** Listings fetched one after another, each with the cursor of the one before. */
  ghost predicate Walk<T, U>(matched: seq<T>, show: T -> U, identity: string, cursor: Option<string>, pages: seq<Listing<U>>)
    decreases |pages|
  {
    && pages != []
    && Offset(cursor, identity, |matched|).Ok?
    && IsListing(matched, show, identity, Offset(cursor, identity, |matched|).value, pages[0])
    && match pages[0].next
       case None => |pages| == 1
       case Some(next) => Walk(matched, show, identity, Some(next), pages[1..])
  }

  function Flatten<U>(pages: seq<Listing<U>>): seq<U> {
    if pages == [] then [] else pages[0].items + Flatten(pages[1..])
  }

  function Shown<T, U>(matched: seq<T>, show: T -> U): seq<U> {
    seq(|matched|, i requires 0 <= i < |matched| => show(matched[i]))
  }

  /**
   Following cursors enumerates the selected entries exactly once and in order, whatever
   limit and byte budgets each page was cut to.
  */
  lemma {:induction false} WalkCovers<T, U>(matched: seq<T>, show: T -> U, identity: string, cursor: Option<string>,
                                            pages: seq<Listing<U>>)
    requires |matched| <= USIZE && |identity| + 21 <= CURSOR_LIMIT
    requires Walk(matched, show, identity, cursor, pages)
    ensures Flatten(pages) == Shown(matched, show)[Offset(cursor, identity, |matched|).value..]
    decreases |pages|
  {
    var offset, n := Offset(cursor, identity, |matched|).value, |pages[0].items|;
    ListingItems(matched, show, identity, offset, pages[0]);
    if pages[0].next.Some? {
      EmittedCursorIsAccepted(identity, offset + n, |matched|);
      WalkCovers(matched, show, identity, pages[0].next, pages[1..]);
    } else {
      assert Flatten(pages[1..]) == [];
    }
    SliceJoins(Shown(matched, show), offset, n);
  }

  lemma ListingItems<T, U>(matched: seq<T>, show: T -> U, identity: string, offset: nat, page: Listing<U>)
    requires IsListing(matched, show, identity, offset, page)
    ensures page.items == Shown(matched, show)[offset..offset + |page.items|]
  {
  }

  lemma SliceJoins<U>(all: seq<U>, offset: nat, n: nat)
    requires offset + n <= |all|
    ensures all[offset..offset + n] + all[offset + n..] == all[offset..]
    ensures offset + n == |all| ==> all[offset..offset + n] == all[offset..]
  {
  }

  /** From no cursor at all: every entry the query selects, exactly once, in sorted order. */
  lemma WalkYieldsCatalog<T(!new), U>(entries: seq<T>, selects: T -> bool, order: (T, T) -> bool, show: T -> U,
                                      identity: string, pages: seq<Listing<U>>)
    requires Total(order) && |identity| + 21 <= CURSOR_LIMIT
    requires |Matched(entries, selects, order)| <= USIZE
    requires Walk(Matched(entries, selects, order), show, identity, None, pages)
    ensures var matched := Matched(entries, selects, order);
            && Flatten(pages) == Shown(matched, show)
            && Sorted(matched, order) && multiset(matched) == multiset(Select(entries, selects))
  {
    SortSorts(Select(entries, selects), order);
    WalkCovers(Matched(entries, selects, order), show, identity, None, pages);
  }
}
