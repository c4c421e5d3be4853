/**
 * The application's persistent state (app.js:15-41, 753-765, 851-856, 958-1024) as one object
 * holding the `localStorage` map, updated in place by the handlers in the order the code runs
 * them. Each method is proved to leave exactly the storage the corresponding `StoreSpec`
 * function describes, so everything proved there holds of the object.
 *
 * `loadMonth` is the month key `DEFAULT_STATS` was built with when the script was loaded; the
 * current month is passed to each call as the year and zero-based month `new Date()` reports.
 */
module Store {
  import opened Wrappers
  import opened Text
  import Month
  import Email
  import Ids
  import opened StoreSpec

  class LocalStore {
    var items: Storage
    const loadMonth: string

    /** Every key holds its own kind of record. */
    predicate Valid()
      reads this
    {
      WellFormed(items)
    }

    /** The stored storage as the browser hands it over, and the clock at load time. */
    constructor (initial: Storage, year: int, month0: nat)
      requires month0 < 12 && WellFormed(initial)
      ensures Valid()
      ensures items == initial && loadMonth == Month.MonthKey(year, month0)
    {
      items := initial;
      loadMonth := Month.MonthKey(year, month0);
    }

    function User(): Option<StoreSpec.User>
      reads this
    {
      ReadUser(items)
    }

    function Sops(): seq<SavedSop>
      reads this
    {
      ReadSops(items)
    }

    /** `setStats(s)` */
    method SetStats(s: Stats)
      requires Valid()
      modifies this
      ensures Valid()
      ensures items == StoreSpec.SetStats(old(items), s)
    {
      items := items[STATS_KEY := StatsRecord(s)];
    }

    /** `setUser(u)` */
    method SetUser(u: StoreSpec.User)
      requires Valid()
      modifies this
      ensures Valid()
      ensures items == StoreSpec.SetUser(old(items), u)
    {
      items := items[USER_KEY := UserRecord(u)];
    }

    /** `clearUser()`, the "Log out" link. */
    method ClearUser()
      requires Valid()
      modifies this
      ensures Valid() && User().None?
      ensures items == StoreSpec.ClearUser(old(items))
    {
      items := items - {USER_KEY};
    }

    /** `getStats()`, in the month given by `year` and `month0`. */
    method GetStats(year: int, month0: nat) returns (s: Stats)
      requires month0 < 12 && Valid()
      modifies this
      ensures Valid()
      ensures s.monthKey == Month.MonthKey(year, month0)
      ensures (s, items) == StoreSpec.GetStats(old(items), loadMonth, Month.MonthKey(year, month0))
    {
      var now := Month.MonthKey(year, month0);
      s := ReadStats(items).GetOr(DefaultStats(loadMonth));
      if s.monthKey != now {
        s := Stats(now, 0, 0);
        SetStats(s);
      }
    }

    /** The "Save to dashboard" handler. */
    method SaveSop(sop: SavedSop, year: int, month0: nat)
      requires month0 < 12 && Valid() && sop.length in HOURS_PER_SOP
      modifies this
      ensures Valid()
      ensures items == StoreSpec.SaveSop(old(items), loadMonth, Month.MonthKey(year, month0), sop)
      ensures Sops() == old(Sops()) + [sop]
    {
      var sops := ReadSops(items);
      sops := sops + [sop];
      items := items[SOPS_KEY := SopsRecord(sops)];
      var stats := GetStats(year, month0);
      stats := stats.(sopsThisMonth := stats.sopsThisMonth + 1);
      stats := stats.(hoursSavedThisMonth := stats.hoursSavedThisMonth + HOURS_PER_SOP[sop.length]);
      SetStats(stats);
      KeysDistinct();
    }

    /** The dashboard's "Reset month" button. */
    method ResetMonth(year: int, month0: nat)
      requires month0 < 12 && Valid()
      modifies this
      ensures Valid()
      ensures items == StoreSpec.ResetMonth(old(items), Month.MonthKey(year, month0))
    {
      SetStats(Stats(Month.MonthKey(year, month0), 0, 0));
    }

    /** `completeLogin(email)`; `idBytes` are the bytes `cryptoRandomId()` would draw. */
    method CompleteLogin(email: string, createdAt: string, idBytes: seq<Ids.byte>)
      requires Valid() && |idBytes| == 8
      modifies this
      ensures Valid()
      ensures items == StoreSpec.CompleteLogin(old(items), loadMonth, email, createdAt, idBytes)
      ensures User().Some? && User().value.email == email
    {
      var existing := ReadUser(items);
      var user;
      if existing.Some? {
        user := existing.value;
      } else {
        user := StoreSpec.User(Ids.CryptoRandomId(idBytes), email, createdAt);
      }
      user := user.(email := email);
      SetUser(user);
      if STATS_KEY !in items {
        SetStats(DefaultStats(loadMonth));
      }
      KeysDistinct();
    }

    /** The "Send verification code" handler; `sent` tells whether a code was issued. */
    method SendCode(input: string, draw: nat, createdAt: int) returns (sent: bool)
      requires Valid() && draw < 900000
      modifies this
      ensures Valid()
      ensures sent == Acceptable(Trim(input))
      ensures items == StoreSpec.SendCode(old(items), input, draw, createdAt)
    {
      var email := Trim(input);
      if email == [] || !Email.IsValidEmail(email) {
        return false;
      }
      var code := Ids.VerificationCode(draw);
      items := items[AUTH_KEY := AuthRecord(Challenge(email, code, createdAt))];
      sent := true;
    }

    /** The "Verify & continue" handler. */
    method VerifyCode(entered: string, createdAt: string, idBytes: seq<Ids.byte>)
      returns (outcome: VerifyOutcome)
      requires Valid() && |idBytes| == 8
      modifies this
      ensures Valid()
      ensures (outcome, items) == StoreSpec.VerifyCode(old(items), entered, loadMonth, createdAt, idBytes)
    {
      if AUTH_KEY !in items {
        return NoChallenge;
      }
      var challenge := items[AUTH_KEY].challenge;
      if Trim(entered) != challenge.code {
        return IncorrectCode;
      }
      CompleteLogin(challenge.email, createdAt, idBytes);
      outcome := SignedIn(challenge.email);
    }

    /** The simulated Google sign-in; `answer` is what `prompt` returned. */
    method GoogleSignIn(answer: Option<string>, createdAt: string, idBytes: seq<Ids.byte>)
      returns (who: Option<string>)
      requires Valid() && |idBytes| == 8
      modifies this
      ensures Valid()
      ensures (who, items) == StoreSpec.GoogleSignIn(old(items), answer, loadMonth, createdAt, idBytes)
    {
      if answer.None? || answer.value == [] || !Email.IsValidEmail(answer.value) {
        return None;
      }
      CompleteLogin(answer.value, createdAt, idBytes);
      who := answer;
    }
  }
}
