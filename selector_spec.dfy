/** What plugins/selector.py computes, stated as values: how an ordered
    label-to-callback mapping is cut into pages, how a reaction steps the shown
    page, how a role pick is decided, and how role labels are ordered. The
    classes in module Selector are proved against these functions. */
module SelectorSpec {
  import opened Common

  /** Most items on one page. */
  const MAX_ROWS: nat := 10
  /** The "previous page" and "next page" reactions. */
  const LARROW: string := "\U{1F448}"
  const RARROW: string := "\U{1F449}"
  /** Least number of seconds between two role picks of one user. */
  const MIN_SEC: int := 3
  /** Seconds after which a role list is fetched again. */
  const ROLE_UPDATE_INTERVAL: int := 60
  /** Capacity of the deque of recently posted selectors. */
  const POSTED_MAXLEN: nat := 50

  /** The item markers: keycaps 0 to 9, then the regional indicators A to Z. */
  const SITEMS: seq<string> := [
    "\U{30}\U{FE0F}\U{20E3}", "\U{31}\U{FE0F}\U{20E3}", "\U{32}\U{FE0F}\U{20E3}",
    "\U{33}\U{FE0F}\U{20E3}", "\U{34}\U{FE0F}\U{20E3}", "\U{35}\U{FE0F}\U{20E3}",
    "\U{36}\U{FE0F}\U{20E3}", "\U{37}\U{FE0F}\U{20E3}", "\U{38}\U{FE0F}\U{20E3}",
    "\U{39}\U{FE0F}\U{20E3}",
    "\U{1F1E6}", "\U{1F1E7}", "\U{1F1E8}", "\U{1F1E9}", "\U{1F1EA}", "\U{1F1EB}",
    "\U{1F1EC}", "\U{1F1ED}", "\U{1F1EE}", "\U{1F1EF}", "\U{1F1F0}", "\U{1F1F1}",
    "\U{1F1F2}", "\U{1F1F3}", "\U{1F1F4}", "\U{1F1F5}", "\U{1F1F6}", "\U{1F1F7}",
    "\U{1F1F8}", "\U{1F1F9}", "\U{1F1FA}", "\U{1F1FB}", "\U{1F1FC}", "\U{1F1FD}",
    "\U{1F1FE}", "\U{1F1FF}"
  ]

  /** Marker i of SITEMS, computed: keycap digits for 0 to 9 ("<digit>",
      U+FE0F, U+20E3), regional indicators A to Z (U+1F1E6 onwards) for 10
      to 35, and nothing past 35. Pages are built from this function rather
      than by indexing the literal list, which keeps the proofs small. */
  function Marker(i: nat): string {
    if i < 10 then [('0' as int + i) as char, '\U{FE0F}', '\U{20E3}']
    else if i < 36 then [(0x1F1E6 + i - 10) as char]
    else []
  }

  /** The computed markers are exactly the listed ones. */
  lemma MarkersListed()
    ensures |SITEMS| == 36
    ensures forall i :: 0 <= i < 36 ==> Marker(i) == SITEMS[i]
  {
    forall i | 0 <= i < 36 ensures Marker(i) == SITEMS[i] {
      if i < 10 {
        assert i in {0, 1, 2, 3, 4, 5, 6, 7, 8, 9};
      } else {
        assert i in {10, 11, 12, 13, 14, 15, 16, 17, 18, 19, 20, 21, 22, 23, 24, 25, 26, 27, 28, 29,
                     30, 31, 32, 33, 34, 35};
      }
    }
  }

  /** The markers are pairwise different, so a page's emoji-to-callback
      dictionary keeps every item of the page. */
  lemma MarkersDistinct(i: nat, j: nat)
    requires i < j < 36
    ensures Marker(i) != Marker(j)
  {
    assert Marker(i)[0] != Marker(j)[0];
  }

  // ---------------------------------------------------------------------
  // Pages

  /** A callback a selector item fires: the role selectors' own `do_stuff`,
      or some other handler supplied by the caller. */
  datatype Callback = DoStuff | Handler(id: nat)

  /** One entry of the label-to-callback mapping given to `set_items`. */
  datatype Item = Item(text: string, func: Callback)

  /** One entry of a page's emoji-to-(callback, label) dictionary. */
  datatype Entry = Entry(emoji: string, func: Callback, text: string)

  /** The embed a page is shown as (what `prepare_embed` is given). */
  datatype Embed = Embed(title: string, description: string, footer: string)

  datatype Page = Page(embed: Embed, entries: seq<Entry>)

  function Min(a: int, b: int): int { if a <= b then a else b }

  /** Number of pages for n items: n / MAX_ROWS rounded up. */
  function TotalPages(n: nat): (r: nat)
    ensures r * MAX_ROWS >= n && r * MAX_ROWS < n + MAX_ROWS
  {
    n / MAX_ROWS + (if n % MAX_ROWS != 0 then 1 else 0)
  }

  /** "<title> (part k/N)" */
  function PartTitle(title: string, part: nat, total: nat): string {
    title + " (part " + NatToString(part) + "/" + NatToString(total) + ")"
  }

  /** The description line of one entry: "<emoji> <label>\n". */
  function Line(e: Entry): string {
    e.emoji + " " + e.text + "\n"
  }

  function Description(es: seq<Entry>): (d: string)
    ensures d == [] <==> es == []
  {
    if es == [] then [] else Description(es[..|es| - 1]) + Line(es[|es| - 1])
  }

  /** The entries of one page: the i-th item of the page gets marker i. */
  function Label(chunk: seq<Item>): (es: seq<Entry>)
    requires |chunk| <= MAX_ROWS
    ensures |es| == |chunk|
  {
    if chunk == [] then []
    else Label(chunk[..|chunk| - 1]) + [Entry(Marker(|chunk| - 1), chunk[|chunk| - 1].func, chunk[|chunk| - 1].text)]
  }

  /** Entry j of a labelled page carries marker j and item j of the page. */
  lemma {:induction false} LabelAt(chunk: seq<Item>, j: nat)
    requires |chunk| <= MAX_ROWS && j < |chunk|
    ensures Label(chunk)[j] == Entry(Marker(j), chunk[j].func, chunk[j].text)
  {
    if j < |chunk| - 1 {
      LabelAt(chunk[..|chunk| - 1], j);
    }
  }

  /** Page k (from 0) of a selector over `items`, of `total` pages: it holds
      items k*MAX_ROWS up to (k+1)*MAX_ROWS, fewer on the last page; its
      description lists them one line each; its title is "(part k+1/total)"
      unless it is a lone partial page, which keeps the plain title. */
  function PageOf(title: string, footer: string, items: seq<Item>, total: nat, k: nat): Page
    requires k * MAX_ROWS < |items|
  {
    var lo := k * MAX_ROWS;
    var hi := Min(lo + MAX_ROWS, |items|);
    var es := Label(items[lo..hi]);
    Page(Embed(if hi - lo == MAX_ROWS || k > 0 then PartTitle(title, k + 1, total) else title, Description(es), footer), es)
  }

  /** The pages `set_items` builds: one per started run of MAX_ROWS items. */
  function Pages(title: string, footer: string, items: seq<Item>): seq<Page> {
    var total := TotalPages(|items|);
    seq(total, k requires 0 <= k < total => PageOf(title, footer, items, total, k))
  }

  /** Where `set_items` stands after reading items[..i]: k full pages are
      built, and the page in progress holds items[lo..i], labelled as `es`
      and described by `d`. */
  ghost predicate Paging(title: string, footer: string, items: seq<Item>, total: nat,
                         k: nat, lo: nat, i: nat, es: seq<Entry>, d: string, pages: seq<Page>)
  {
    && lo == k * MAX_ROWS && lo <= i <= |items| && i - lo < MAX_ROWS
    && es == Label(items[lo .. i])
    && d == Description(es)
    && |pages| == k
    && forall j :: 0 <= j < k ==> pages[j] == PageOf(title, footer, items, total, j)
  }

  lemma SliceSnoc<T>(s: seq<T>, lo: nat, hi: nat)
    requires lo < hi <= |s|
    ensures s[lo .. hi] == s[lo .. hi - 1] + [s[hi - 1]]
  {
  }

  /** Labelling one more item of a page gives it the next marker. */
  lemma LabelSnoc(chunk: seq<Item>, it: Item)
    requires |chunk| < MAX_ROWS
    ensures Label(chunk + [it]) == Label(chunk) + [Entry(Marker(|chunk|), it.func, it.text)]
  {
    assert (chunk + [it])[..|chunk|] == chunk;
  }

  /** Reading item i: its entry joins the page in progress, and when that
      page is full it is closed under "(part k+1/total)" and a new one begins. */
  lemma PagingStep(title: string, footer: string, items: seq<Item>, total: nat,
                   k: nat, lo: nat, i: nat, es: seq<Entry>, d: string, pages: seq<Page>, c: nat, part: nat)
    requires Paging(title, footer, items, total, k, lo, i, es, d, pages) && i < |items|
    requires c == i - lo && part == k + 1
    ensures var e := Entry(Marker(c), items[i].func, items[i].text);
      && (c + 1 < MAX_ROWS ==> Paging(title, footer, items, total, k, lo, i + 1, es + [e], d + Line(e), pages))
      && (c + 1 >= MAX_ROWS ==>
            Paging(title, footer, items, total, k + 1, i + 1, i + 1, [], "",
                   pages + [Page(Embed(PartTitle(title, part, total), d + Line(e), footer), es + [e])]))
  {
    var e := Entry(Marker(c), items[i].func, items[i].text);
    SliceSnoc(items, lo, i + 1);
    LabelSnoc(items[lo .. i], items[i]);
    assert (es + [e])[..|es|] == es;
    assert Description(es + [e]) == d + Line(e);
    if c + 1 >= MAX_ROWS {
      assert (k + 1) * MAX_ROWS == i + 1;
      var pg := Page(Embed(PartTitle(title, part, total), d + Line(e), footer), es + [e]);
      assert pg == PageOf(title, footer, items, total, k);
      var pages' := pages + [pg];
      forall j | 0 <= j < k + 1 ensures pages'[j] == PageOf(title, footer, items, total, j) {
        if j < k {
          assert pages'[j] == pages[j];
        }
      }
    }
  }

  /** When every item is read, the pages are the full ones built so far plus
      the page in progress, if it holds anything: titled "(part k+1/total)"
      after a full page and with the plain title otherwise. */
  lemma PagingDone(title: string, footer: string, items: seq<Item>, total: nat,
                   k: nat, lo: nat, es: seq<Entry>, d: string, pages: seq<Page>)
    requires total == TotalPages(|items|)
    requires Paging(title, footer, items, total, k, lo, |items|, es, d, pages)
    ensures Pages(title, footer, items) ==
            pages + if d == [] then [] else [Page(Embed(if k > 0 then PartTitle(title, k + 1, total) else title, d, footer), es)]
  {
    var n := |items|;
    var ps := pages + if d == [] then [] else [Page(Embed(if k > 0 then PartTitle(title, k + 1, total) else title, d, footer), es)];
    assert n / MAX_ROWS == k;
    assert total == k + (if d == [] then 0 else 1);
    forall j | 0 <= j < total ensures ps[j] == PageOf(title, footer, items, total, j) {
      if j == k {
        assert Min(lo + MAX_ROWS, n) == n;
      }
    }
  }

  /** There are TotalPages pages; every page holds one to MAX_ROWS entries,
      and every page but the last holds exactly MAX_ROWS. */
  lemma PageSizes(title: string, footer: string, items: seq<Item>, k: nat)
    requires k < |Pages(title, footer, items)|
    ensures |Pages(title, footer, items)| == TotalPages(|items|)
    ensures var es := Pages(title, footer, items)[k].entries;
      && 1 <= |es| <= MAX_ROWS
      && (k + 1 < |Pages(title, footer, items)| ==> |es| == MAX_ROWS)
  {
    var total := TotalPages(|items|);
    if k + 1 < total {
      assert (k + 1) * MAX_ROWS < |items|;
    }
  }

  /** Entry j of page k is item k*MAX_ROWS+j of the mapping, keyed by
      SITEMS[j]: markers restart on every page and only the first MAX_ROWS
      of them are used. */
  lemma PageEntry(title: string, footer: string, items: seq<Item>, k: nat, j: nat)
    requires k < |Pages(title, footer, items)| && j < |Pages(title, footer, items)[k].entries|
    ensures j < MAX_ROWS && k * MAX_ROWS + j < |items|
    ensures Pages(title, footer, items)[k].entries[j] ==
            Entry(SITEMS[j], items[k * MAX_ROWS + j].func, items[k * MAX_ROWS + j].text)
  {
    var chunk := Chunk(items, k);
    assert Pages(title, footer, items)[k].entries == Label(chunk);
    LabelAt(chunk, j);
    MarkersListed();
  }

  /** The title rule: a full page is always titled "(part k/N)", even when
      it is the only page; a short last page is titled so only when it is
      not the first page, and keeps the plain title otherwise. */
  lemma PageTitles(title: string, footer: string, items: seq<Item>, k: nat)
    requires k < |Pages(title, footer, items)|
    ensures var p := Pages(title, footer, items)[k];
      var part := PartTitle(title, k + 1, |Pages(title, footer, items)|);
      && (|p.entries| == MAX_ROWS ==> p.embed.title == part)
      && (|p.entries| < MAX_ROWS ==> (p.embed.title == part <==> k > 0))
      && (|p.entries| < MAX_ROWS && k == 0 ==> p.embed.title == title)
  {
    var n := |Pages(title, footer, items)|;
    assert |PartTitle(title, k + 1, n)| > |title|;
  }

  /** The (callback, label) pairs of a page's entries, in order. */
  function Strip(es: seq<Entry>): seq<Item> {
    seq(|es|, j requires 0 <= j < |es| => Item(es[j].text, es[j].func))
  }

  /** The (callback, label) pairs of a run of pages, in page order. */
  function Unlabel(ps: seq<Page>): seq<Item> {
    if ps == [] then [] else Unlabel(ps[..|ps| - 1]) + Strip(ps[|ps| - 1].entries)
  }

  lemma StripLabel(chunk: seq<Item>)
    requires |chunk| <= MAX_ROWS
    ensures Strip(Label(chunk)) == chunk
  {
    forall j | 0 <= j < |chunk| ensures Strip(Label(chunk))[j] == chunk[j] {
      LabelAt(chunk, j);
    }
  }

  lemma UnlabelSnoc(ps: seq<Page>, m: nat)
    requires 0 < m <= |ps|
    ensures Unlabel(ps[..m]) == Unlabel(ps[..m - 1]) + Strip(ps[m - 1].entries)
  {
    assert ps[..m][..m - 1] == ps[..m - 1];
  }

  /** Items k*MAX_ROWS up to (k+1)*MAX_ROWS, or to the end. */
  function Chunk(items: seq<Item>, k: nat): seq<Item>
    requires k * MAX_ROWS < |items|
  {
    items[k * MAX_ROWS .. Min(k * MAX_ROWS + MAX_ROWS, |items|)]
  }

  lemma ChunkJoin(items: seq<Item>, m: nat)
    requires 0 < m && (m - 1) * MAX_ROWS < |items|
    ensures items[..Min(m * MAX_ROWS, |items|)] == items[..(m - 1) * MAX_ROWS] + Chunk(items, m - 1)
  {
    var lo := (m - 1) * MAX_ROWS;
    assert Min(m * MAX_ROWS, |items|) == Min(lo + MAX_ROWS, |items|);
  }

  /** The pairs on page k are the k-th chunk of the items. */
  lemma PageItems(title: string, footer: string, items: seq<Item>, k: nat)
    requires k < |Pages(title, footer, items)|
    ensures k * MAX_ROWS < |items|
    ensures Strip(Pages(title, footer, items)[k].entries) == Chunk(items, k)
  {
    StripLabel(Chunk(items, k));
  }

  /** The first m pages hold the first m*MAX_ROWS items (all of them once
      m reaches the page count). */
  lemma {:induction false} UnlabelPrefix(title: string, footer: string, items: seq<Item>, m: nat)
    requires m <= |Pages(title, footer, items)|
    ensures Unlabel(Pages(title, footer, items)[..m]) == items[..Min(m * MAX_ROWS, |items|)]
  {
    if m > 0 {
      var ps := Pages(title, footer, items);
      UnlabelPrefix(title, footer, items, m - 1);
      UnlabelSnoc(ps, m);
      PageItems(title, footer, items, m - 1);
      ChunkJoin(items, m);
    }
  }

  /** Reading the pages' entries in order gives back the mapping, item for
      item and in its order: nothing is lost, repeated or reordered. */
  lemma PagesKeepItems(title: string, footer: string, items: seq<Item>)
    ensures Unlabel(Pages(title, footer, items)) == items
  {
    var ps := Pages(title, footer, items);
    UnlabelPrefix(title, footer, items, |ps|);
    assert ps[..|ps|] == ps;
    assert items[..|items|] == items;
  }

  /** Which entry a reaction picks on the shown page, if any. */
  function Lookup(es: seq<Entry>, emoji: string): (r: Option<Entry>)
    ensures r.Some? ==> r.value in es && r.value.emoji == emoji
    ensures r.None? ==> forall j :: 0 <= j < |es| ==> es[j].emoji != emoji
  {
    if es == [] then None
    else if es[0].emoji == emoji then Some(es[0])
    else Lookup(es[1..], emoji)
  }

  /** The first entry carrying the emoji is the one picked. */
  lemma {:induction false} LookupFirst(es: seq<Entry>, emoji: string, j: nat)
    requires j < |es| && es[j].emoji == emoji
    requires forall i :: 0 <= i < j ==> es[i].emoji != emoji
    ensures Lookup(es, emoji) == Some(es[j])
  {
    if j > 0 {
      LookupFirst(es[1..], emoji, j - 1);
    }
  }

  /** On the page shown, marker j picks entry j: the callback and label of
      item k*MAX_ROWS+j of the mapping. */
  lemma MarkerPicksItem(title: string, footer: string, items: seq<Item>, k: nat, j: nat)
    requires k < |Pages(title, footer, items)| && j < |Pages(title, footer, items)[k].entries|
    ensures j < MAX_ROWS && k * MAX_ROWS + j < |items|
    ensures Lookup(Pages(title, footer, items)[k].entries, SITEMS[j]) ==
            Some(Entry(SITEMS[j], items[k * MAX_ROWS + j].func, items[k * MAX_ROWS + j].text))
  {
    var es := Pages(title, footer, items)[k].entries;
    PageEntry(title, footer, items, k, j);
    forall i | 0 <= i < j ensures es[i].emoji != SITEMS[j] {
      PageEntry(title, footer, items, k, i);
      MarkersDistinct(i, j);
      MarkersListed();
    }
    LookupFirst(es, SITEMS[j], j);
  }

  /** On a role selector, marker j of page k fires `do_stuff` with the
      label of role k*MAX_ROWS+j. */
  lemma RolePickFiresDoStuff(title: string, footer: string, labels: seq<string>, k: nat, j: nat)
    requires k < |Pages(title, footer, RoleItems(labels))|
    requires j < |Pages(title, footer, RoleItems(labels))[k].entries|
    ensures k * MAX_ROWS + j < |labels|
    ensures Lookup(Pages(title, footer, RoleItems(labels))[k].entries, SITEMS[j]) ==
            Some(Entry(SITEMS[j], DoStuff, labels[k * MAX_ROWS + j]))
  {
    var n := k * MAX_ROWS + j;
    PageEntry(title, footer, RoleItems(labels), k, j);
    assert RoleItems(labels)[n] == Item(labels[n], DoStuff);
    MarkerPicksItem(title, footer, RoleItems(labels), k, j);
  }

  // ---------------------------------------------------------------------
  // Stepping through pages

  /** -1 for the left arrow, +1 for the right arrow, 0 for anything else. */
  function Delta(emoji: string): int {
    if emoji in [LARROW, RARROW] then (if emoji == LARROW then -1 else 1) else 0
  }

  /** The page shown after a reaction, among `count` pages: one step left or
      right, then reset to the first page at or past the end and to the last
      page before the start, whatever page the step came from. */
  function NextPage(page: int, emoji: string, count: nat): (r: int)
    ensures count > 0 ==> 0 <= r < count
    ensures 0 <= page < count ==> r == (page + Delta(emoji)) % count
    ensures count > 0 && page + Delta(emoji) >= count ==> r == 0
    ensures count > 0 && page + Delta(emoji) < 0 ==> r == count - 1
    ensures 0 <= page + Delta(emoji) < count ==> r == page + Delta(emoji)
    ensures count == 0 ==> r == if page + Delta(emoji) >= 0 then 0 else -1
  {
    var p := page + Delta(emoji);
    if p >= count then 0 else if p < 0 then count - 1 else p
  }

  /** A step right is undone by a step left, and the other way round. */
  lemma ArrowsUndoEachOther(page: int, count: nat)
    requires 0 <= page < count
    ensures NextPage(NextPage(page, RARROW, count), LARROW, count) == page
    ensures NextPage(NextPage(page, LARROW, count), RARROW, count) == page
  {
  }

  // ---------------------------------------------------------------------
  // Role picks

  datatype Role = Role(id: nat, name: string)

  /** What `do_stuff` does with one pick. */
  datatype Assignment =
    | TooQuick                                  // picked again within MIN_SEC: nothing changes
    | Removed(role: Role)                       // the user held the role: it is taken away
    | Added(role: Role, evicted: seq<Role>)     // the role is given after taking `evicted` away

  predicate Holds(held: seq<Role>, id: nat) {
    exists j :: 0 <= j < |held| && held[j].id == id
  }

  /** The decision for a user holding `held` (the roles of the list, in the
      order the server reports them) who picks `role`, when not rate limited. */
  function Decide(held: seq<Role>, role: Role, maxSelectable: int): Assignment {
    if Holds(held, role.id) then Removed(role)
    else if maxSelectable > 0 && |held| >= maxSelectable then Added(role, held[..|held| - maxSelectable + 1])
    else Added(role, [])
  }

  /** The roles of the list the user holds after an assignment. */
  function Apply(held: seq<Role>, a: Assignment): seq<Role> {
    match a
    case TooQuick => held
    case Removed(role) => Without(held, role.id)
    case Added(role, evicted) => (if |evicted| <= |held| then held[|evicted|..] else []) + [role]
  }

  function Without(held: seq<Role>, id: nat): (r: seq<Role>)
    ensures forall j :: 0 <= j < |r| ==> r[j].id != id
    ensures forall x :: x in r <==> x in held && x.id != id
  {
    if held == [] then []
    else if held[0].id == id then Without(held[1..], id)
    else [held[0]] + Without(held[1..], id)
  }

  /** Picking a role toggles it: held afterwards exactly when not held before. */
  lemma PickToggles(held: seq<Role>, role: Role, maxSelectable: int)
    ensures Holds(Apply(held, Decide(held, role, maxSelectable)), role.id) <==> !Holds(held, role.id)
  {
    var after := Apply(held, Decide(held, role, maxSelectable));
    if !Holds(held, role.id) {
      assert after[|after| - 1] == role;
    }
  }

  /** Taking a held role away leaves every other held role, in order. */
  lemma RemovingKeepsOthers(held: seq<Role>, role: Role, maxSelectable: int)
    requires Holds(held, role.id)
    ensures Decide(held, role, maxSelectable) == Removed(role)
    ensures Apply(held, Removed(role)) == Without(held, role.id)
    ensures forall x :: x in held && x.id != role.id ==> x in Apply(held, Removed(role))
  {
  }

  /** At the cap, the first |held| - max + 1 held roles go and the pick is
      added, leaving exactly `maxSelectable` roles of the list. */
  lemma EvictionKeepsCap(held: seq<Role>, role: Role, maxSelectable: int)
    requires !Holds(held, role.id) && maxSelectable > 0 && |held| >= maxSelectable
    ensures Decide(held, role, maxSelectable).evicted == held[..|held| - maxSelectable + 1]
    ensures Apply(held, Decide(held, role, maxSelectable)) == held[|held| - maxSelectable + 1..] + [role]
    ensures |Apply(held, Decide(held, role, maxSelectable))| == maxSelectable
  {
  }

  /** A user within the cap stays within it; with no cap nothing is evicted. */
  lemma PickRespectsCap(held: seq<Role>, role: Role, maxSelectable: int)
    ensures maxSelectable > 0 && |held| <= maxSelectable ==>
              |Apply(held, Decide(held, role, maxSelectable))| <= maxSelectable
    ensures maxSelectable <= 0 && !Holds(held, role.id) ==> Decide(held, role, maxSelectable) == Added(role, [])
  {
    if maxSelectable > 0 && |held| <= maxSelectable && Holds(held, role.id) {
      WithoutShrinks(held, role.id);
    }
  }

  lemma {:induction false} WithoutShrinks(held: seq<Role>, id: nat)
    requires Holds(held, id)
    ensures |Without(held, id)| < |held|
  {
    if held[0].id != id {
      assert Holds(held[1..], id) by {
        var j :| 0 <= j < |held| && held[j].id == id;
        assert held[1..][j - 1].id == id;
      }
      WithoutShrinks(held[1..], id);
    } else {
      WithoutAtMost(held[1..], id);
    }
  }

  lemma {:induction false} WithoutAtMost(held: seq<Role>, id: nat)
    ensures |Without(held, id)| <= |held|
  {
    if held != [] {
      WithoutAtMost(held[1..], id);
    }
  }

  // ---------------------------------------------------------------------
  // Ordering role labels

  /** ASCII case folding (what `str.lower` does to ASCII letters). */
  function LowerChar(c: char): char {
    if 'A' <= c <= 'Z' then (c as int + 32) as char else c
  }

  function Lower(s: string): string {
    seq(|s|, i requires 0 <= i < |s| => LowerChar(s[i]))
  }

  /** Python's string order: code point by code point, a prefix first. */
  predicate LexLeq(a: string, b: string) {
    a == [] || (b != [] && (a[0] < b[0] || (a[0] == b[0] && LexLeq(a[1..], b[1..]))))
  }

  lemma {:induction false} LexTotal(a: string, b: string)
    ensures LexLeq(a, b) || LexLeq(b, a)
  {
    if a != [] && b != [] && a[0] == b[0] {
      LexTotal(a[1..], b[1..]);
    }
  }

  lemma {:induction false} LexTransitive(a: string, b: string, c: string)
    requires LexLeq(a, b) && LexLeq(b, c)
    ensures LexLeq(a, c)
  {
    if a != [] && b != [] && c != [] && a[0] == b[0] == c[0] {
      LexTransitive(a[1..], b[1..], c[1..]);
    }
  }

  /** The sort key of `sorted(..., key=str.lower)`. */
  predicate KeyLeq(a: string, b: string) {
    LexLeq(Lower(a), Lower(b))
  }

  predicate SortedByKey(s: seq<string>) {
    forall i, j :: 0 <= i < j < |s| ==> KeyLeq(s[i], s[j])
  }

  /** Insert before the first element whose key is not smaller, so that
      among equal keys the earlier input stays first. */
  function Insert(x: string, s: seq<string>): (r: seq<string>)
    ensures multiset(r) == multiset(s) + multiset{x}
  {
    if s == [] then [x]
    else if KeyLeq(x, s[0]) then [x] + s
    else
      assert s == [s[0]] + s[1..];
      [s[0]] + Insert(x, s[1..])
  }

  function SortByLower(s: seq<string>): seq<string> {
    if s == [] then [] else Insert(s[0], SortByLower(s[1..]))
  }

  lemma SortedTail(s: seq<string>)
    requires s != [] && SortedByKey(s)
    ensures SortedByKey(s[1..])
  {
    forall i, j | 0 <= i < j < |s| - 1 ensures KeyLeq(s[1..][i], s[1..][j]) {
      assert s[1..][i] == s[i + 1] && s[1..][j] == s[j + 1];
    }
  }

  lemma SortedCons(y: string, t: seq<string>)
    requires SortedByKey(t) && forall z :: z in t ==> KeyLeq(y, z)
    ensures SortedByKey([y] + t)
  {
    var r := [y] + t;
    forall i, j | 0 <= i < j < |r| ensures KeyLeq(r[i], r[j]) {
      assert r[j] == t[j - 1];
      if i > 0 {
        assert r[i] == t[i - 1];
      }
    }
  }

  lemma {:induction false} InsertSorted(x: string, s: seq<string>)
    requires SortedByKey(s)
    ensures SortedByKey(Insert(x, s))
  {
    if s == [] {
    } else if KeyLeq(x, s[0]) {
      forall z | z in s ensures KeyLeq(x, z) {
        var j :| 0 <= j < |s| && s[j] == z;
        if j > 0 {
          LexTransitive(Lower(x), Lower(s[0]), Lower(z));
        }
      }
      SortedCons(x, s);
    } else {
      LexTotal(Lower(x), Lower(s[0]));
      SortedTail(s);
      InsertSorted(x, s[1..]);
      var t := Insert(x, s[1..]);
      forall z | z in t ensures KeyLeq(s[0], z) {
        assert z in multiset(t);
        if z != x {
          assert z in multiset(s[1..]);
          var j :| 0 <= j < |s[1..]| && s[1..][j] == z;
          assert s[j + 1] == z;
        }
      }
      SortedCons(s[0], t);
    }
  }

  /** The labels come out ordered case-insensitively and are a permutation
      of the labels that went in. */
  lemma {:induction false} SortByLowerSpec(s: seq<string>)
    ensures SortedByKey(SortByLower(s))
    ensures multiset(SortByLower(s)) == multiset(s)
  {
    if s != [] {
      SortByLowerSpec(s[1..]);
      InsertSorted(s[0], SortByLower(s[1..]));
      assert s == [s[0]] + s[1..];
    }
  }

  // ---------------------------------------------------------------------
  // Role lists fetched from the server

  /** The labels an OrderedDict keeps when the names are assigned in order:
      each name once, where it first occurred. */
  function Dedup(names: seq<string>): (r: seq<string>)
    ensures forall i, j :: 0 <= i < j < |r| ==> r[i] != r[j]
    ensures forall x :: x in r <==> x in names
  {
    if names == [] then []
    else
      var d := Dedup(names[..|names| - 1]);
      var last := names[|names| - 1];
      assert forall x :: x in names <==> x in names[..|names| - 1] || x == last;
      if last in d then d else d + [last]
  }

  /** The names of the fetched roles, in server order. */
  function Names(roles: seq<Role>): seq<string> {
    seq(|roles|, j requires 0 <= j < |roles| => roles[j].name)
  }

  /** name -> role, the later of two roles with one name winning (see
      NameMapLast). */
  function NameMap(roles: seq<Role>): (m: map<string, Role>)
    ensures forall k :: k in m <==> exists j :: 0 <= j < |roles| && roles[j].name == k
    ensures forall k :: k in m ==> m[k].name == k && m[k] in roles
  {
    if roles == [] then map[]
    else
      var last := roles[|roles| - 1];
      var m := NameMap(roles[..|roles| - 1]);
      assert forall r :: r in roles <==> r in roles[..|roles| - 1] || r == last;
      m[last.name := last]
  }

  /** The dictionary built from (name, role) pairs, the later pair winning. */
  function PairMap(pairs: seq<(string, Role)>): (m: map<string, Role>)
    ensures forall k :: k in m <==> exists j :: 0 <= j < |pairs| && pairs[j].0 == k
  {
    if pairs == [] then map[]
    else
      var last := pairs[|pairs| - 1];
      PairMap(pairs[..|pairs| - 1])[last.0 := last.1]
  }

  /** The names of (name, role) pairs, in the order fetched. */
  function Keys(pairs: seq<(string, Role)>): seq<string> {
    seq(|pairs|, j requires 0 <= j < |pairs| => pairs[j].0)
  }

  /** The mapping handed to `set_items` by a role selector: every label fires `do_stuff`. */
  function RoleItems(labels: seq<string>): seq<Item> {
    seq(|labels|, j requires 0 <= j < |labels| => Item(labels[j], DoStuff))
  }

  /** The pairs a dictionary iterates over have pairwise different names. */
  predicate DistinctKeys(pairs: seq<(string, Role)>) {
    forall i, j :: 0 <= i < j < |pairs| ==> pairs[i].0 != pairs[j].0
  }

  /** Each fetched name maps to the role fetched with it. */
  lemma {:induction false} PairMapValue(pairs: seq<(string, Role)>, j: nat)
    requires DistinctKeys(pairs) && j < |pairs|
    ensures pairs[j].0 in PairMap(pairs) && PairMap(pairs)[pairs[j].0] == pairs[j].1
  {
    if j < |pairs| - 1 {
      PairMapValue(pairs[..|pairs| - 1], j);
    }
  }

  /** `role_list` names exactly the keys of `name_to_role`, in the order
      fetched, and the role under the j-th name is the j-th role fetched. */
  lemma RoleListKeys(pairs: seq<(string, Role)>)
    requires DistinctKeys(pairs)
    ensures |Keys(pairs)| == |pairs|
    ensures forall k :: k in Keys(pairs) <==> k in PairMap(pairs)
    ensures forall j :: 0 <= j < |pairs| ==>
              Keys(pairs)[j] == pairs[j].0 && PairMap(pairs)[Keys(pairs)[j]] == pairs[j].1
  {
    forall j | 0 <= j < |pairs|
      ensures pairs[j].0 in PairMap(pairs) && PairMap(pairs)[pairs[j].0] == pairs[j].1
    {
      PairMapValue(pairs, j);
    }
    forall k | k in PairMap(pairs) ensures k in Keys(pairs) {
      var j :| 0 <= j < |pairs| && pairs[j].0 == k;
      assert Keys(pairs)[j] == k;
    }
  }

  /** A role that no later role shares its name with is the one its name
      maps to. */
  lemma {:induction false} NameMapLast(roles: seq<Role>, j: nat)
    requires j < |roles|
    requires forall i :: j < i < |roles| ==> roles[i].name != roles[j].name
    ensures roles[j].name in NameMap(roles) && NameMap(roles)[roles[j].name] == roles[j]
  {
    if j < |roles| - 1 {
      NameMapLast(roles[..|roles| - 1], j);
    }
  }

  /** The names in the name map are the names fetched. */
  lemma NameMapKeys(roles: seq<Role>, x: string)
    ensures x in NameMap(roles) <==> x in Names(roles)
  {
    if x in NameMap(roles) {
      var j :| 0 <= j < |roles| && roles[j].name == x;
      assert Names(roles)[j] == x;
    }
  }

  /** One more fetched role: it takes over its name in the name map, and
      its name joins the labels unless the map already had it. */
  lemma RangeStep(roles: seq<Role>, i: nat)
    requires i < |roles|
    ensures NameMap(roles[..i + 1]) == NameMap(roles[..i])[roles[i].name := roles[i]]
    ensures Dedup(Names(roles[..i + 1])) ==
              if roles[i].name in NameMap(roles[..i]) then Dedup(Names(roles[..i]))
              else Dedup(Names(roles[..i])) + [roles[i].name]
  {
    assert roles[..i + 1][..i] == roles[..i];
    var names := Names(roles[..i + 1]);
    assert names[..i] == Names(roles[..i]);
    NameMapKeys(roles[..i], roles[i].name);
  }

  lemma RoleItemsSnoc(labels: seq<string>, x: string)
    ensures RoleItems(labels + [x]) == RoleItems(labels) + [Item(x, DoStuff)]
  {
  }

  /** Position of the first occurrence of x in names. */
  function FirstIndex(names: seq<string>, x: string): (p: nat)
    requires x in names
    ensures p < |names| && names[p] == x && x !in names[..p]
  {
    if names[0] == x then 0
    else
      var p := FirstIndex(names[1..], x);
      assert names[..p + 1] == [names[0]] + names[1..][..p];
      p + 1
  }

  /** Adding a name at the end moves no first occurrence. */
  lemma FirstIndexSnoc(names: seq<string>, x: string)
    requires names != [] && x in names[..|names| - 1]
    ensures FirstIndex(names[..|names| - 1], x) == FirstIndex(names, x)
  {
    var q := FirstIndex(names[..|names| - 1], x);
    assert names[q] == x;
  }

  /** The OrderedDict keeps first-seen order: its labels appear in the
      order of each name's first occurrence among the fetched names. */
  lemma {:induction false} DedupFirstSeen(names: seq<string>)
    ensures forall x :: x in Dedup(names) ==> x in names
    ensures forall i, j :: 0 <= i < j < |Dedup(names)| ==>
              FirstIndex(names, Dedup(names)[i]) < FirstIndex(names, Dedup(names)[j])
  {
    if names != [] {
      var init := names[..|names| - 1];
      var last := names[|names| - 1];
      var d := Dedup(init);
      var r := Dedup(names);
      DedupFirstSeen(init);
      forall x | x in d ensures FirstIndex(init, x) == FirstIndex(names, x) {
        FirstIndexSnoc(names, x);
      }
      if last !in d {
        assert last !in init;
        assert r == d + [last];
        assert FirstIndex(names, last) == |names| - 1;
      }
    }
  }
}
