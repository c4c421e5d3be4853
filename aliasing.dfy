/**
 * `DEFAULT_STATS` as the code actually uses it (app.js:22, 29-37, 757-765, 853-856). When no
 * stats are stored and the month has not changed since the script loaded, `getStats()` returns
 * the `DEFAULT_STATS` object itself, and the save handler then increments that shared object.
 * The "Reset month" button builds its record by spreading `DEFAULT_STATS`, so after such a
 * save it writes the incremented counters back instead of zeros, and `getStats()` itself
 * spreads the same object when the month rolls over, so the new month starts from those counters.
 *
 * This module models that heap: the storage plus the current fields of the one shared object.
 * The corrected behaviour is the one in module `StoreSpec`, which the rest of the model uses.
 */
module StatsAliasing {
  import opened Wrappers
  import opened StoreSpec

  /** The storage together with the fields of the shared `DEFAULT_STATS` object. */
  datatype World = World(st: Storage, shared: Stats)

  /** What `getStats()` hands back: the shared object itself, or a record of its own. */
  datatype Handle = Shared | Own(s: Stats)

  function Deref(w: World, h: Handle): Stats {
    match h
    case Shared => w.shared
    case Own(s) => s
  }

  /** `getStats()` as written. */
  function GetStatsAsWritten(w: World, now: string): (Handle, World) {
    var h := if ReadStats(w.st).Some? then Own(ReadStats(w.st).value) else Shared;
    if Deref(w, h).monthKey != now then
      var copy := w.shared.(monthKey := now);
      (Own(copy), w.(st := SetStats(w.st, copy)))
    else (h, w)
  }

  /** The save handler as written: the increments land on whatever object `getStats()`
      returned, the shared one included. */
  function SaveSopAsWritten(w: World, now: string, sop: SavedSop): World
    requires sop.length in HOURS_PER_SOP
  {
    var w1 := w.(st := w.st[SOPS_KEY := SopsRecord(ReadSops(w.st) + [sop])]);
    var (h, w2) := GetStatsAsWritten(w1, now);
    var s := Deref(w2, h);
    var bumped := Stats(s.monthKey, s.sopsThisMonth + 1, s.hoursSavedThisMonth + HOURS_PER_SOP[sop.length]);
    var w3 := if h.Shared? then w2.(shared := bumped) else w2;
    w3.(st := SetStats(w3.st, bumped))
  }

  /** "Reset month" as written: `{ ...DEFAULT_STATS, monthKey: monthKey() }`. */
  function ResetMonthAsWritten(w: World, now: string): World {
    w.(st := SetStats(w.st, w.shared.(monthKey := now)))
  }

  /** As written: with no stats stored and the shared default still untouched in the month the
      script loaded, saving one SOP and then pressing "Reset month" leaves the stored counters
      at one SOP and that SOP's hours, not at zero. */
  lemma ResetAfterSaveKeepsCounts(st: Storage, now: string, sop: SavedSop)
    requires ReadStats(st).None? && sop.length in HOURS_PER_SOP
    ensures var w := ResetMonthAsWritten(SaveSopAsWritten(World(st, DefaultStats(now)), now, sop), now);
      ReadStats(w.st) == Some(Stats(now, 1, HOURS_PER_SOP[sop.length]))
  {
    KeysDistinct();
  }

  /** A concrete instance: a signed-in user whose stats key is missing saves a 13-step SOP in
      January 2025 and resets the month; two hours and one SOP stay on the dashboard. */
  lemma ResetAfterSaveExample()
    ensures var st := map[USER_KEY := UserRecord(User("0123456789abcdef", "jo@example.com", "2025-01-05"))];
      var sop := SavedSop("Invoice approval", "Finance", "13", "2025-01-05", "...");
      var w := ResetMonthAsWritten(SaveSopAsWritten(World(st, DefaultStats("2025-01")), "2025-01", sop), "2025-01");
      ReadStats(w.st) == Some(Stats("2025-01", 1, 2))
  {
    var st := map[USER_KEY := UserRecord(User("0123456789abcdef", "jo@example.com", "2025-01-05"))];
    KeysDistinct();
    assert ReadStats(st).None?;
    ResetAfterSaveKeepsCounts(st, "2025-01", SavedSop("Invoice approval", "Finance", "13", "2025-01-05", "..."));
  }

  /** Corrected: with a fresh zeroed default, "Reset month" after any save leaves zero SOPs and
      zero hours for the current month, and `getStats()` then reports exactly that. */
  lemma CorrectedResetAfterSave(st: Storage, loadMonth: string, now: string, sop: SavedSop)
    requires sop.length in HOURS_PER_SOP
    ensures var st' := ResetMonth(SaveSop(st, loadMonth, now, sop), now);
      && ReadStats(st') == Some(Stats(now, 0, 0))
      && GetStats(st', loadMonth, now).0 == Stats(now, 0, 0)
      && ReadSops(st') == ReadSops(st) + [sop]
  {
    SaveSopSpec(st, loadMonth, now, sop);
    KeysDistinct();
  }

  /** Where the stats key is already stored, which is the case after every sign-in, and the
      shared object is still zeroed, the code as written and the corrected model save identically
      and the shared object stays untouched. */
  lemma AgreeWhenStored(st: Storage, loadMonth: string, now: string, sop: SavedSop)
    requires ReadStats(st).Some? && sop.length in HOURS_PER_SOP
    ensures SaveSopAsWritten(World(st, DefaultStats(loadMonth)), now, sop)
         == World(SaveSop(st, loadMonth, now, sop), DefaultStats(loadMonth))
  {
    KeysDistinct();
  }

  /** As written: with no stats stored, a save in the month the script loaded bumps the shared
      object; when the month then rolls over in the same page session, `getStats()` spreads that
      object, so the new month starts at one SOP and that SOP's hours, and stores them. */
  lemma RolloverAfterSaveKeepsCounts(st: Storage, loadMonth: string, later: string, sop: SavedSop)
    requires ReadStats(st).None? && sop.length in HOURS_PER_SOP && later != loadMonth
    ensures var w := SaveSopAsWritten(World(st, DefaultStats(loadMonth)), loadMonth, sop);
      var r := GetStatsAsWritten(w, later);
      && Deref(r.1, r.0) == Stats(later, 1, HOURS_PER_SOP[sop.length])
      && ReadStats(r.1.st) == Some(Stats(later, 1, HOURS_PER_SOP[sop.length]))
  {
    KeysDistinct();
  }

  /** Corrected: after any save, the first `getStats()` of a later month reports and stores a
      zeroed record for that month, and the saved list keeps the new entry. */
  lemma CorrectedRolloverAfterSave(st: Storage, loadMonth: string, now: string, later: string,
                                   sop: SavedSop)
    requires sop.length in HOURS_PER_SOP && later != now
    ensures var r := GetStats(SaveSop(st, loadMonth, now, sop), loadMonth, later);
      && r.0 == Stats(later, 0, 0)
      && ReadStats(r.1) == Some(Stats(later, 0, 0))
      && ReadSops(r.1) == ReadSops(st) + [sop]
  {
    SaveSopSpec(st, loadMonth, now, sop);
    KeysDistinct();
  }
}
