/**
 * What the dashboard (app.js:225-292) and the home page's counters (app.js:829-834) show of the
 * stored state: this month's figures from `getStats()`, and the "Recent SOPs" table built by
 * `renderRecentSopsTable()`. The table's cells are the escaped values; the creation time is kept
 * as the stored ISO string because `toLocaleString()` depends on the browser's locale.
 */
module Dashboard {
  import opened Wrappers
  import Escape
  import opened StoreSpec

  /** The badge and the two counters. */
  datatype Figures = Figures(month: string, sops: int, hours: int)

  /** The figures both pages show, and the storage `getStats()` leaves behind. */
  function ShowFigures(st: Storage, loadMonth: string, now: string): (Figures, Storage) {
    var (s, st') := GetStats(st, loadMonth, now);
    (Figures(s.monthKey, s.sopsThisMonth, s.hoursSavedThisMonth), st')
  }

  function Reverse<T>(s: seq<T>): (r: seq<T>)
    ensures |r| == |s|
    ensures forall k :: 0 <= k < |s| ==> r[k] == s[|s| - 1 - k]
  {
    if s == [] then [] else Reverse(s[1..]) + [s[0]]
  }

  /** `sops.slice(-8).reverse()`: at most eight entries, newest first. */
  function Recent(sops: seq<SavedSop>): (r: seq<SavedSop>)
    ensures |r| == if |sops| < 8 then |sops| else 8
    ensures forall k :: 0 <= k < |r| ==> r[k] == sops[|sops| - 1 - k]
  {
    var tail := if |sops| <= 8 then sops else sops[|sops| - 8..];
    Reverse(tail)
  }

  /** One table row: title, category tag, "n steps", and the creation time. */
  datatype Row = Row(title: string, category: string, length: string, created: string)

  datatype Listing = NoSopsYet | Table(rows: seq<Row>)

  function RowOf(s: SavedSop): Row {
    Row(Escape.EscapeHtml(Some(s.title)), Escape.EscapeHtml(Some(s.category)),
        Escape.EscapeHtml(Some(s.length)) + " steps", s.createdAt)
  }

  function RowsOf(sops: seq<SavedSop>): (rows: seq<Row>)
    ensures |rows| == |sops|
    ensures forall k :: 0 <= k < |sops| ==> rows[k] == RowOf(sops[k])
  {
    if sops == [] then [] else [RowOf(sops[0])] + RowsOf(sops[1..])
  }

  /** The table for a saved list. */
  function ListingOf(sops: seq<SavedSop>): Listing {
    if |sops| == 0 then NoSopsYet else Table(RowsOf(Recent(sops)))
  }

  /** `renderRecentSopsTable()` */
  function RecentTable(st: Storage): Listing {
    ListingOf(ReadSops(st))
  }

  /** The placeholder shows exactly when nothing is saved; otherwise row `k` is the `k`-th newest
      entry, at most eight rows, and its cells decode back to the stored title and category. */
  lemma ListingSpec(sops: seq<SavedSop>)
    ensures ListingOf(sops).NoSopsYet? <==> sops == []
    ensures ListingOf(sops).Table? ==>
      && |ListingOf(sops).rows| == (if |sops| < 8 then |sops| else 8)
      && forall k :: 0 <= k < |ListingOf(sops).rows| ==>
           && ListingOf(sops).rows[k] == RowOf(sops[|sops| - 1 - k])
           && Escape.Unescape(ListingOf(sops).rows[k].title) == sops[|sops| - 1 - k].title
           && Escape.Unescape(ListingOf(sops).rows[k].category) == sops[|sops| - 1 - k].category
  {
    if |sops| > 0 {
      var recent := Recent(sops);
      var rows := RowsOf(recent);
      forall k | 0 <= k < |rows|
        ensures rows[k] == RowOf(sops[|sops| - 1 - k])
        ensures Escape.Unescape(rows[k].title) == sops[|sops| - 1 - k].title
        ensures Escape.Unescape(rows[k].category) == sops[|sops| - 1 - k].category
      {
        assert rows[k] == RowOf(recent[k]);
        RowDecodes(recent[k]);
      }
    }
  }

  /** A row's title and category read back as the saved values. */
  lemma RowDecodes(s: SavedSop)
    ensures Escape.Unescape(RowOf(s).title) == s.title
    ensures Escape.Unescape(RowOf(s).category) == s.category
  {
    Escape.EscapeHtmlRoundTrip(s.title);
    Escape.EscapeHtmlRoundTrip(s.category);
  }

  /** No cell built from a saved value carries a raw `<`, `>`, `"` or `'`. */
  lemma RowsAreSafe(s: SavedSop)
    ensures forall k :: 0 <= k < |RowOf(s).title| ==> !Escape.IsMarkupChar(RowOf(s).title[k])
    ensures forall k :: 0 <= k < |RowOf(s).category| ==> !Escape.IsMarkupChar(RowOf(s).category[k])
  {
    Escape.EscapeHtmlIsSafe(Some(s.title));
    Escape.EscapeHtmlIsSafe(Some(s.category));
  }

  /** After saving, the dashboard lists the new SOP on top and its counters have gone up by one
      SOP and by that length's hours since the figures shown before. */
  lemma SaveShowsOnDashboard(st: Storage, loadMonth: string, now: string, sop: SavedSop)
    requires sop.length in HOURS_PER_SOP
    ensures var st' := SaveSop(st, loadMonth, now, sop);
      var before := ShowFigures(st, loadMonth, now).0;
      && RecentTable(st').Table? && RecentTable(st').rows[0] == RowOf(sop)
      && ShowFigures(st', loadMonth, now).0
           == Figures(now, before.sops + 1, before.hours + HOURS_PER_SOP[sop.length])
  {
    var st' := SaveSop(st, loadMonth, now, sop);
    SaveSopSpec(st, loadMonth, now, sop);
    GetStatsSpec(st, loadMonth, now);
    GetStatsSpec(st', loadMonth, now);
    ListingSpec(ReadSops(st'));
  }
}
