/**
 * The browser's `localStorage` as the application uses it (app.js): four records under the
 * keys `STORAGE_KEYS`, read and written by `getStats`/`setStats`, `getUser`/`setUser`/
 * `clearUser`, the builder's save handler, the dashboard's "Reset month" button and the three
 * sign-in handlers. Each operation is a function from the old storage to the new one; the
 * `LocalStore` class in module `Store` runs them step by step against a mutable map.
 *
 * The clock and the random sources are parameters: `now` is the current month key
 * (`monthKey()`), `loadMonth` the month key `DEFAULT_STATS` was built with when the script
 * loaded, `createdAt` a timestamp, `draw` the random draw behind a verification code and
 * `idBytes` the eight bytes `crypto.getRandomValues` fills in.
 */
module StoreSpec {
  import opened Wrappers
  import opened Text
  import Email
  import Ids

  const USER_KEY := "sopmaster:user"
  const STATS_KEY := "sopmaster:stats"
  const AUTH_KEY := "sopmaster:auth"
  const SOPS_KEY := "sopmaster:sops"

  /** The four keys are different strings. */
  lemma KeysDistinct()
    ensures USER_KEY != STATS_KEY && USER_KEY != AUTH_KEY && USER_KEY != SOPS_KEY
    ensures STATS_KEY != AUTH_KEY && STATS_KEY != SOPS_KEY && AUTH_KEY != SOPS_KEY
  {
    assert USER_KEY[10] == 'u' && STATS_KEY[10] == 's' && AUTH_KEY[10] == 'a' && SOPS_KEY[10] == 's';
    assert STATS_KEY[11] == 't' && SOPS_KEY[11] == 'o';
  }

  datatype User = User(id: string, email: string, createdAt: string)

  /** The monthly counters. */
  datatype Stats = Stats(monthKey: string, sopsThisMonth: int, hoursSavedThisMonth: int)

  /** The pending e-mail challenge `{ email, code, createdAt }`. */
  datatype Challenge = Challenge(email: string, code: string, createdAt: int)

  /** An entry of the saved-SOP list. */
  datatype SavedSop = SavedSop(title: string, category: string, length: string, createdAt: string,
                               content: string)

  /** What a key holds once its JSON is parsed. */
  datatype Record = UserRecord(user: User) | StatsRecord(stats: Stats)
                  | AuthRecord(challenge: Challenge) | SopsRecord(sops: seq<SavedSop>)

  type Storage = map<string, Record>

  /** Each of the four keys holds the kind of record the application writes under it. */
  predicate WellFormed(st: Storage) {
    && (USER_KEY in st ==> st[USER_KEY].UserRecord?)
    && (STATS_KEY in st ==> st[STATS_KEY].StatsRecord?)
    && (AUTH_KEY in st ==> st[AUTH_KEY].AuthRecord?)
    && (SOPS_KEY in st ==> st[SOPS_KEY].SopsRecord?)
  }

  /** Every key other than `changed` holds what it held before. */
  ghost predicate OthersUnchanged(st: Storage, st': Storage, changed: set<string>) {
    forall k :: k !in changed ==> (k in st <==> k in st') && (k in st ==> st'[k] == st[k])
  }

  // ---------------------------------------------------------------------------------------------
  // Readers

  /** `getUser()`: `null` when nothing is stored. */
  function ReadUser(st: Storage): Option<User> {
    if USER_KEY in st && st[USER_KEY].UserRecord? then Some(st[USER_KEY].user) else None
  }

  function ReadStats(st: Storage): Option<Stats> {
    if STATS_KEY in st && st[STATS_KEY].StatsRecord? then Some(st[STATS_KEY].stats) else None
  }

  function ReadChallenge(st: Storage): Option<Challenge> {
    if AUTH_KEY in st && st[AUTH_KEY].AuthRecord? then Some(st[AUTH_KEY].challenge) else None
  }

  /** The saved list, `[]` when nothing is stored. */
  function ReadSops(st: Storage): seq<SavedSop> {
    if SOPS_KEY in st && st[SOPS_KEY].SopsRecord? then st[SOPS_KEY].sops else []
  }

  // ---------------------------------------------------------------------------------------------
  // Stats

  /** `DEFAULT_STATS`, taken as a fresh zeroed record (see module `StatsAliasing` for the shared
      object the code actually uses). */
  function DefaultStats(loadMonth: string): Stats {
    Stats(loadMonth, 0, 0)
  }

  /** `HOURS_PER_SOP` */
  const HOURS_PER_SOP: map<string, int> := map["13" := 2, "26" := 5]

  /** `getStats()`: the stored record (or the default), replaced by a zeroed record for the
      current month, and persisted, when its month key is not the current one. */
  function GetStats(st: Storage, loadMonth: string, now: string): (Stats, Storage) {
    var s := ReadStats(st).GetOr(DefaultStats(loadMonth));
    if s.monthKey != now then
      var zeroed := Stats(now, 0, 0);
      (zeroed, st[STATS_KEY := StatsRecord(zeroed)])
    else (s, st)
  }

  /** `setStats(s)` */
  function SetStats(st: Storage, s: Stats): Storage {
    st[STATS_KEY := StatsRecord(s)]
  }

  /** The save handler: append the entry to the saved list, then add one SOP and the length's
      hours to this month's counters. */
  function SaveSop(st: Storage, loadMonth: string, now: string, sop: SavedSop): Storage
    requires sop.length in HOURS_PER_SOP
  {
    var st1 := st[SOPS_KEY := SopsRecord(ReadSops(st) + [sop])];
    var (s, st2) := GetStats(st1, loadMonth, now);
    SetStats(st2, Stats(s.monthKey, s.sopsThisMonth + 1, s.hoursSavedThisMonth + HOURS_PER_SOP[sop.length]))
  }

  /** The dashboard's "Reset month": `{ ...DEFAULT_STATS, monthKey: monthKey() }`. */
  function ResetMonth(st: Storage, now: string): Storage {
    SetStats(st, Stats(now, 0, 0))
  }

  // ---------------------------------------------------------------------------------------------
  // Signing in

  /** `setUser(u)` */
  function SetUser(st: Storage, u: User): Storage {
    st[USER_KEY := UserRecord(u)]
  }

  /** `clearUser()` */
  function ClearUser(st: Storage): Storage {
    st - {USER_KEY}
  }

  /** `completeLogin(email)`: keep the stored user (or make a new one) with its e-mail set, and
      seed the stats when the stats key is empty. */
  function CompleteLogin(st: Storage, loadMonth: string, email: string, createdAt: string,
                         idBytes: seq<Ids.byte>): Storage
    requires |idBytes| == 8
  {
    var user := match ReadUser(st)
      case Some(u) => u.(email := email)
      case None => User(Ids.CryptoRandomId(idBytes), email, createdAt);
    var st1 := SetUser(st, user);
    if STATS_KEY !in st1 then SetStats(st1, DefaultStats(loadMonth)) else st1
  }

  /** `!email || !/^\S+@\S+\.\S+$/.test(email)` */
  predicate Acceptable(email: string) {
    email != [] && Email.IsValidEmail(email)
  }

  /** The "Send verification code" handler: the trimmed address, if acceptable, gets a new
      challenge that replaces any earlier one. */
  function SendCode(st: Storage, input: string, draw: nat, createdAt: int): Storage
    requires draw < 900000
  {
    var email := Trim(input);
    if !Acceptable(email) then st
    else st[AUTH_KEY := AuthRecord(Challenge(email, Ids.VerificationCode(draw), createdAt))]
  }

  datatype VerifyOutcome = NoChallenge | IncorrectCode | SignedIn(email: string)

  /** The "Verify & continue" handler. */
  function VerifyCode(st: Storage, entered: string, loadMonth: string, createdAt: string,
                      idBytes: seq<Ids.byte>): (VerifyOutcome, Storage)
    requires |idBytes| == 8
  {
    match ReadChallenge(st)
    case None => (NoChallenge, st)
    case Some(c) =>
      if Trim(entered) != c.code then (IncorrectCode, st)
      else (SignedIn(c.email), CompleteLogin(st, loadMonth, c.email, createdAt, idBytes))
  }

  /** The simulated Google sign-in: the address typed into `prompt` (`None` when it is
      cancelled), not trimmed. */
  function GoogleSignIn(st: Storage, answer: Option<string>, loadMonth: string, createdAt: string,
                        idBytes: seq<Ids.byte>): (Option<string>, Storage)
    requires |idBytes| == 8
  {
    match answer
    case Some(email) =>
      if Acceptable(email) then (Some(email), CompleteLogin(st, loadMonth, email, createdAt, idBytes))
      else (None, st)
    case None => (None, st)
  }

  // ---------------------------------------------------------------------------------------------
  // What the operations promise

  /** `getStats` always answers for the current month. A stored record for the current month
      is returned as it is and nothing is written; any other stored record is replaced by a
      zeroed record for the current month, which is written back. With nothing stored, the
      zeroed default is returned, and written only when the month has changed since load. */
  lemma GetStatsSpec(st: Storage, loadMonth: string, now: string)
    ensures GetStats(st, loadMonth, now).0.monthKey == now
    ensures ReadStats(st).Some? && ReadStats(st).value.monthKey == now ==>
      GetStats(st, loadMonth, now) == (ReadStats(st).value, st)
    ensures ReadStats(st).Some? && ReadStats(st).value.monthKey != now ==>
      GetStats(st, loadMonth, now) == (Stats(now, 0, 0), SetStats(st, Stats(now, 0, 0)))
    ensures ReadStats(st).None? && loadMonth == now ==>
      GetStats(st, loadMonth, now) == (Stats(now, 0, 0), st)
    ensures ReadStats(st).None? && loadMonth != now ==>
      GetStats(st, loadMonth, now) == (Stats(now, 0, 0), SetStats(st, Stats(now, 0, 0)))
    ensures OthersUnchanged(st, GetStats(st, loadMonth, now).1, {STATS_KEY})
  {
  }

  /** Asking twice is the same as asking once: the second call reports the same record and
      writes nothing. */
  lemma GetStatsIdempotent(st: Storage, loadMonth: string, now: string)
    ensures var (s, st1) := GetStats(st, loadMonth, now);
      GetStats(st1, loadMonth, now) == (s, st1)
  {
  }

  /** The counters `getStats` reports depend only on the stats key. */
  lemma GetStatsOnlyReadsStats(st: Storage, st1: Storage, loadMonth: string, now: string)
    requires ReadStats(st1) == ReadStats(st)
    ensures GetStats(st1, loadMonth, now).0 == GetStats(st, loadMonth, now).0
  {
  }

  /** Saving appends exactly one entry at the end of the list and leaves the earlier ones alone;
      it raises this month's SOP count by 1 and its hours by 2 for length "13" and 5 for "26",
      starting from what `getStats` reported; the user and the challenge are untouched. */
  lemma SaveSopSpec(st: Storage, loadMonth: string, now: string, sop: SavedSop)
    requires sop.length in HOURS_PER_SOP
    ensures var st' := SaveSop(st, loadMonth, now, sop);
      var before := GetStats(st, loadMonth, now).0;
      && ReadSops(st') == ReadSops(st) + [sop]
      && ReadStats(st') == Some(Stats(now, before.sopsThisMonth + 1,
           before.hoursSavedThisMonth + (if sop.length == "13" then 2 else 5)))
      && OthersUnchanged(st, st', {SOPS_KEY, STATS_KEY})
  {
    var st1 := st[SOPS_KEY := SopsRecord(ReadSops(st) + [sop])];
    GetStatsOnlyReadsStats(st, st1, loadMonth, now);
    GetStatsSpec(st1, loadMonth, now);
  }

  /** Two saves in the same month accumulate: two entries in order, two more SOPs and the sum of
      both lengths' hours. */
  lemma SavesAccumulate(st: Storage, loadMonth: string, now: string, a: SavedSop, b: SavedSop)
    requires a.length in HOURS_PER_SOP && b.length in HOURS_PER_SOP
    ensures var st' := SaveSop(SaveSop(st, loadMonth, now, a), loadMonth, now, b);
      var before := GetStats(st, loadMonth, now).0;
      && ReadSops(st') == ReadSops(st) + [a, b]
      && ReadStats(st') == Some(Stats(now, before.sopsThisMonth + 2,
           before.hoursSavedThisMonth + HOURS_PER_SOP[a.length] + HOURS_PER_SOP[b.length]))
      && OthersUnchanged(st, st', {SOPS_KEY, STATS_KEY})
  {
    var st1 := SaveSop(st, loadMonth, now, a);
    SaveSopSpec(st, loadMonth, now, a);
    SaveSopSpec(st1, loadMonth, now, b);
    GetStatsSpec(st1, loadMonth, now);
    assert ReadSops(st) + [a] + [b] == ReadSops(st) + [a, b];
  }

  /** After "Reset month" the dashboard reads zero for both counters of the current month. */
  lemma ResetMonthSpec(st: Storage, loadMonth: string, now: string)
    ensures var st' := ResetMonth(st, now);
      && ReadStats(st') == Some(Stats(now, 0, 0))
      && GetStats(st', loadMonth, now) == (Stats(now, 0, 0), st')
      && ReadSops(st') == ReadSops(st) && ReadUser(st') == ReadUser(st)
      && OthersUnchanged(st, st', {STATS_KEY})
  {
  }

  /** `completeLogin` keeps an existing user's id and creation time and changes only the
      e-mail; a first sign-in creates a user whose id is the sixteen hex digits of the random
      bytes. Stats are seeded (zeroed, for the load month) only when none are stored, and the
      saved list and the challenge are untouched. */
  lemma CompleteLoginSpec(st: Storage, loadMonth: string, email: string, createdAt: string,
                          idBytes: seq<Ids.byte>)
    requires |idBytes| == 8
    ensures var st' := CompleteLogin(st, loadMonth, email, createdAt, idBytes);
      && ReadUser(st').Some? && ReadUser(st').value.email == email
      && (ReadUser(st).Some? ==>
            ReadUser(st').value == ReadUser(st).value.(email := email))
      && (ReadUser(st).None? ==>
            ReadUser(st').value == User(Ids.CryptoRandomId(idBytes), email, createdAt)
            && |ReadUser(st').value.id| == 16)
      && (STATS_KEY in st ==> ReadStats(st') == ReadStats(st))
      && (STATS_KEY !in st ==> ReadStats(st') == Some(DefaultStats(loadMonth)))
      && OthersUnchanged(st, st', {USER_KEY, STATS_KEY})
  {
    KeysDistinct();
    Ids.HexStringPieces(idBytes);
  }

  /** An unacceptable address writes nothing. An acceptable one replaces the challenge with the
      trimmed address and a six-digit code between 100000 and 999999; nothing else changes. */
  lemma SendCodeSpec(st: Storage, input: string, draw: nat, createdAt: int)
    requires draw < 900000
    ensures var st' := SendCode(st, input, draw, createdAt);
      && (!Acceptable(Trim(input)) ==> st' == st)
      && (Acceptable(Trim(input)) ==>
            && ReadChallenge(st') == Some(Challenge(Trim(input), Ids.VerificationCode(draw), createdAt))
            && |ReadChallenge(st').value.code| == 6
            && 100000 <= ValueOf(ReadChallenge(st').value.code, 10) <= 999999
            && OthersUnchanged(st, st', {AUTH_KEY}))
  {
    Ids.VerificationCodeShape(draw);
  }

  /** Verification fails and changes nothing when no challenge is stored or the trimmed entry
      is not the stored code; otherwise it signs in as the challenge's address. The challenge
      stays stored either way. */
  lemma VerifyCodeSpec(st: Storage, entered: string, loadMonth: string, createdAt: string,
                       idBytes: seq<Ids.byte>)
    requires |idBytes| == 8
    ensures var (outcome, st') := VerifyCode(st, entered, loadMonth, createdAt, idBytes);
      && (ReadChallenge(st).None? ==> outcome == NoChallenge && st' == st)
      && (ReadChallenge(st).Some? && Trim(entered) != ReadChallenge(st).value.code ==>
            outcome == IncorrectCode && st' == st)
      && (ReadChallenge(st).Some? && Trim(entered) == ReadChallenge(st).value.code ==>
            && outcome == SignedIn(ReadChallenge(st).value.email)
            && st' == CompleteLogin(st, loadMonth, ReadChallenge(st).value.email, createdAt, idBytes)
            && ReadUser(st').Some? && ReadUser(st').value.email == ReadChallenge(st).value.email
            && ReadChallenge(st') == ReadChallenge(st))
  {
    if c :| ReadChallenge(st) == Some(c) && Trim(entered) == c.code {
      CompleteLoginSpec(st, loadMonth, c.email, createdAt, idBytes);
    }
  }

  /** Sending a code and then entering it: the sign-in succeeds, as the trimmed address that was
      sent, exactly when the trimmed entry equals the code that was issued. */
  lemma SendThenVerify(st: Storage, input: string, draw: nat, sentAt: int, entered: string,
                       loadMonth: string, createdAt: string, idBytes: seq<Ids.byte>)
    requires draw < 900000 && |idBytes| == 8
    requires Acceptable(Trim(input))
    ensures var st1 := SendCode(st, input, draw, sentAt);
      var (outcome, _) := VerifyCode(st1, entered, loadMonth, createdAt, idBytes);
      (outcome == SignedIn(Trim(input)) <==> Trim(entered) == Ids.VerificationCode(draw))
      && (outcome != SignedIn(Trim(input)) ==> outcome == IncorrectCode)
  {
    var st1 := SendCode(st, input, draw, sentAt);
    SendCodeSpec(st, input, draw, sentAt);
    VerifyCodeSpec(st1, entered, loadMonth, createdAt, idBytes);
  }

  /** The simulated Google sign-in signs in exactly when an address was given and it passes the
      pattern, and then as that address. */
  lemma GoogleSignInSpec(st: Storage, answer: Option<string>, loadMonth: string, createdAt: string,
                         idBytes: seq<Ids.byte>)
    requires |idBytes| == 8
    ensures var (who, st') := GoogleSignIn(st, answer, loadMonth, createdAt, idBytes);
      && (who.Some? <==> answer.Some? && Email.MatchesPattern(answer.value))
      && (who.None? ==> st' == st)
      && (who.Some? ==> who == answer && ReadUser(st').Some? && ReadUser(st').value.email == answer.value)
  {
    if answer.Some? {
      Email.IsValidEmailMatchesPattern(answer.value);
      CompleteLoginSpec(st, loadMonth, answer.value, createdAt, idBytes);
    }
  }

  /** Signing out removes the user and nothing else. */
  lemma ClearUserSpec(st: Storage)
    ensures ReadUser(ClearUser(st)).None?
    ensures OthersUnchanged(st, ClearUser(st), {USER_KEY})
  {
  }

  /** A sign-in ends by opening the dashboard, whose `getStats()` runs on the storage
      `completeLogin` left. The user is signed in with the address. The dashboard reports the
      current month. A stats record of the current month is kept. A stale one, or, for a first
      sign-in after the load month, the seeded default, is replaced by zeros for the current month. */
  lemma SignInThenDashboard(st: Storage, loadMonth: string, now: string, email: string,
                            createdAt: string, idBytes: seq<Ids.byte>)
    requires WellFormed(st) && |idBytes| == 8
    ensures var r := GetStats(CompleteLogin(st, loadMonth, email, createdAt, idBytes), loadMonth, now);
      && ReadUser(r.1).Some? && ReadUser(r.1).value.email == email
      && r.0.monthKey == now
      && ReadStats(r.1) == Some(r.0)
      && (ReadStats(st).Some? && ReadStats(st).value.monthKey == now ==> r.0 == ReadStats(st).value)
      && (ReadStats(st).Some? && ReadStats(st).value.monthKey != now ==> r.0 == Stats(now, 0, 0))
      && (ReadStats(st).None? ==> r.0 == Stats(now, 0, 0))
      && ReadSops(r.1) == ReadSops(st)
  {
    var st1 := CompleteLogin(st, loadMonth, email, createdAt, idBytes);
    CompleteLoginSpec(st, loadMonth, email, createdAt, idBytes);
    GetStatsSpec(st1, loadMonth, now);
    KeysDistinct();
  }

  /** "Log out" ends by opening the home page, whose counters come from `getStats()`. Nobody is
      signed in afterwards, the counters are the ones the same read would report before the
      log-out, and the saved list is kept. */
  lemma LogOutThenHome(st: Storage, loadMonth: string, now: string)
    ensures var r := GetStats(ClearUser(st), loadMonth, now);
      && ReadUser(r.1).None?
      && r.0 == GetStats(st, loadMonth, now).0
      && ReadSops(r.1) == ReadSops(st)
  {
    ClearUserSpec(st);
    GetStatsSpec(ClearUser(st), loadMonth, now);
    GetStatsSpec(st, loadMonth, now);
    KeysDistinct();
  }

  /** Every operation keeps each key holding its own kind of record. */
  lemma OperationsKeepWellFormed(st: Storage, loadMonth: string, now: string, sop: SavedSop,
                                 email: string, createdAt: string, idBytes: seq<Ids.byte>,
                                 input: string, draw: nat, sentAt: int, entered: string,
                                 answer: Option<string>, s: Stats, u: User)
    requires WellFormed(st) && sop.length in HOURS_PER_SOP && |idBytes| == 8 && draw < 900000
    ensures WellFormed(SetStats(st, s))
    ensures WellFormed(SetUser(st, u))
    ensures WellFormed(GetStats(st, loadMonth, now).1)
    ensures WellFormed(SaveSop(st, loadMonth, now, sop))
    ensures WellFormed(ResetMonth(st, now))
    ensures WellFormed(CompleteLogin(st, loadMonth, email, createdAt, idBytes))
    ensures WellFormed(SendCode(st, input, draw, sentAt))
    ensures WellFormed(VerifyCode(st, entered, loadMonth, createdAt, idBytes).1)
    ensures WellFormed(GoogleSignIn(st, answer, loadMonth, createdAt, idBytes).1)
    ensures WellFormed(ClearUser(st))
  {
    StatsOperationsKeepWellFormed(st, loadMonth, now, sop, s);
    SignInKeepsWellFormed(st, loadMonth, email, createdAt, idBytes, input, draw, sentAt, entered, answer);
  }

  lemma StatsOperationsKeepWellFormed(st: Storage, loadMonth: string, now: string, sop: SavedSop,
                                      s: Stats)
    requires WellFormed(st) && sop.length in HOURS_PER_SOP
    ensures WellFormed(SetStats(st, s))
    ensures WellFormed(GetStats(st, loadMonth, now).1)
    ensures WellFormed(SaveSop(st, loadMonth, now, sop))
    ensures WellFormed(ResetMonth(st, now))
  {
  }

  lemma SignInKeepsWellFormed(st: Storage, loadMonth: string, email: string, createdAt: string,
                              idBytes: seq<Ids.byte>, input: string, draw: nat, sentAt: int,
                              entered: string, answer: Option<string>)
    requires WellFormed(st) && |idBytes| == 8 && draw < 900000
    ensures WellFormed(CompleteLogin(st, loadMonth, email, createdAt, idBytes))
    ensures WellFormed(SendCode(st, input, draw, sentAt))
    ensures WellFormed(VerifyCode(st, entered, loadMonth, createdAt, idBytes).1)
    ensures WellFormed(GoogleSignIn(st, answer, loadMonth, createdAt, idBytes).1)
  {
    CompleteLoginKeepsWellFormed(st, loadMonth, email, createdAt, idBytes);
    if c :| ReadChallenge(st) == Some(c) {
      CompleteLoginKeepsWellFormed(st, loadMonth, c.email, createdAt, idBytes);
    }
    if answer.Some? {
      CompleteLoginKeepsWellFormed(st, loadMonth, answer.value, createdAt, idBytes);
    }
  }

  lemma CompleteLoginKeepsWellFormed(st: Storage, loadMonth: string, email: string,
                                     createdAt: string, idBytes: seq<Ids.byte>)
    requires WellFormed(st) && |idBytes| == 8
    ensures WellFormed(CompleteLogin(st, loadMonth, email, createdAt, idBytes))
  {
  }
}
