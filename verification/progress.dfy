/**
 Level progression in GameActivity: the stored highest-unlocked level
 (SharedPrefs), `onLevelComplete`, the restart button and the level-select
 rule that decides which level buttons are enabled.
 */
module Progress {
  import opened Nullable
  import opened Board
  import opened Levels
  import opened GameSession

  // ---------------------------------------------------------------------------
  // Kotlin `Int`

  const IntMin := -0x8000_0000
  const IntMax := 0x7fff_ffff

  predicate IsInt(x: int) {
    IntMin <= x <= IntMax
  }

  /** Kotlin's `a + 1` on `Int`: wraps from the largest value to the smallest. */
  function Succ(a: int): (r: int)
    requires IsInt(a)
    ensures IsInt(r)
    ensures a < IntMax ==> r == a + 1
    ensures a == IntMax ==> r == IntMin
  {
    if a == IntMax then IntMin else a + 1
  }

  // ---------------------------------------------------------------------------
  // SharedPrefs

  /** The preference file; `None` while the key has never been written. */
  datatype Prefs = Prefs(highestUnlocked: Option<int>)

  /** `getHighestUnlockedLevel`: the stored value, 1 while unset. */
  function GetHighestUnlockedLevel(p: Prefs): (h: int)
    ensures p.highestUnlocked.None? ==> h == 1
    ensures p.highestUnlocked.Some? ==> h == p.highestUnlocked.value
  {
    Elvis(p.highestUnlocked, 1)
  }

  /** `setHighestUnlockedLevel`: overwrites the stored value. */
  function SetHighestUnlockedLevel(p: Prefs, level: int): (q: Prefs)
    ensures GetHighestUnlockedLevel(q) == level
  {
    Prefs(Some(level))
  }

  /** The guarded write of `onLevelComplete`: store `nextLevel` only when it beats the record. */
  function RecordProgress(p: Prefs, nextLevel: int): (q: Prefs)
    ensures GetHighestUnlockedLevel(q) == Max(GetHighestUnlockedLevel(p), nextLevel)
    ensures nextLevel <= GetHighestUnlockedLevel(p) ==> q == p
  {
    if nextLevel > GetHighestUnlockedLevel(p) then SetHighestUnlockedLevel(p, nextLevel) else p
  }

  function Max(x: int, y: int): int {
    if x < y then y else x
  }

  predicate PrefsValid(p: Prefs) {
    IsInt(GetHighestUnlockedLevel(p))
  }

  /** LevelSelectActivity's rule: button `i` is enabled exactly when `i` does not exceed the highest unlocked level. */
  predicate LevelEnabled(p: Prefs, i: int) {
    i <= GetHighestUnlockedLevel(p)
  }

  // ---------------------------------------------------------------------------
  // GameActivity

  datatype Activity = Activity(
    currentLevelId: int,
    prefs: Prefs,
    finished: bool,     // `finish()` was called: back to the level menu
    view: Session)

  predicate ActivityValid(a: Activity) {
    IsInt(a.currentLevelId) && PrefsValid(a.prefs)
  }

  /** `onCreate`: the level number from the intent (1 when absent) and a view on that level. */
  function OnCreate(levelExtra: Option<int>, prefs: Prefs, now: int): (a: Activity)
    requires levelExtra.Some? ==> IsInt(levelExtra.value)
    requires PrefsValid(prefs)
    ensures ActivityValid(a) && !a.finished && a.prefs == prefs
    ensures a.currentLevelId == Elvis(levelExtra, 1) && a.view.levelId == a.currentLevelId
    ensures a.view == NewSession(a.currentLevelId, now)
    ensures Valid(a.view) && a.view.grid == GetLevel(a.currentLevelId) && a.view.player == Start && !a.view.complete
  {
    var level := Elvis(levelExtra, 1);
    Activity(level, prefs, false, NewSession(level, now))
  }

  /**
   `onLevelComplete`: record the next level as unlocked if it beats the stored
   record, then load it if it exists, or finish when it is past the last level.
   */
  function OnLevelComplete(a: Activity, now: int): (r: Activity)
    requires ActivityValid(a)
    ensures ActivityValid(r)
    // the record becomes the larger of the old record and the next level, so it never drops
    ensures GetHighestUnlockedLevel(r.prefs) == Max(GetHighestUnlockedLevel(a.prefs), Succ(a.currentLevelId))
    // nothing is written when the record already covers the next level
    ensures Succ(a.currentLevelId) <= GetHighestUnlockedLevel(a.prefs) ==> r.prefs == a.prefs
    ensures Succ(a.currentLevelId) <= LevelCount ==>
      && r.currentLevelId == Succ(a.currentLevelId)
      && r.finished == a.finished
      && r.view == SetLevel(a.view, r.currentLevelId, now)
    ensures Succ(a.currentLevelId) > LevelCount ==>
      r.finished && r.currentLevelId == a.currentLevelId && r.view == a.view
    // the view keeps showing the activity's level
    ensures a.view.levelId == a.currentLevelId ==> r.view.levelId == r.currentLevelId
    ensures Valid(a.view) ==> Valid(r.view)
  {
    var nextLevel := Succ(a.currentLevelId);
    var prefs := RecordProgress(a.prefs, nextLevel);
    if nextLevel <= LevelCount then
      a.(prefs := prefs, currentLevelId := nextLevel, view := SetLevel(a.view, nextLevel, now))
    else
      a.(prefs := prefs, finished := true)
  }

  /** The restart button: `setLevel(currentLevelId)`; progress and the level number are left alone. */
  function Restart(a: Activity, now: int): (r: Activity)
    ensures r.prefs == a.prefs && r.currentLevelId == a.currentLevelId && r.finished == a.finished
    ensures r.view == SetLevel(a.view, a.currentLevelId, now)
    // a restart on the victory screen cancels the pending level-complete signal
    ensures !Update(r.view, now).signal
  {
    a.(view := GameSession.SetLevel(a.view, a.currentLevelId, now))
  }

  /**
   One game-loop tick with the activity as host: the view ticks, and a posted
   level-complete signal runs `onLevelComplete`.
   */
  function Tick(a: Activity, now: int): (r: Activity)
    requires ActivityValid(a)
    ensures ActivityValid(r)
    ensures GetHighestUnlockedLevel(r.prefs) >= GetHighestUnlockedLevel(a.prefs)
    ensures !Update(a.view, now).signal ==> r == a.(view := Update(a.view, now).session)
    ensures Update(a.view, now).signal ==> r == OnLevelComplete(a.(view := Update(a.view, now).session), now)
    ensures a.view.levelId == a.currentLevelId ==> r.view.levelId == r.currentLevelId
    ensures Valid(a.view) ==> Valid(r.view)
  {
    var t := Update(a.view, now);
    if t.signal then OnLevelComplete(a.(view := t.session), now) else a.(view := t.session)
  }

  /** A level button enabled before a completion stays enabled after it, and the next level is enabled. */
  lemma CompletionUnlocks(a: Activity, now: int, i: int)
    requires ActivityValid(a)
    ensures LevelEnabled(a.prefs, i) ==> LevelEnabled(OnLevelComplete(a, now).prefs, i)
    ensures LevelEnabled(OnLevelComplete(a, now).prefs, Succ(a.currentLevelId))
  {
  }

  /** Completing the last level with a record of at most 10 stores 11, one past the last level. */
  lemma LastLevelStoresBeyondCount(a: Activity, now: int)
    requires ActivityValid(a)
    requires a.currentLevelId == LevelCount && GetHighestUnlockedLevel(a.prefs) <= LevelCount
    ensures GetHighestUnlockedLevel(OnLevelComplete(a, now).prefs) == LevelCount + 1
    ensures OnLevelComplete(a, now).finished
  {
  }

  /** `n` level completions in a row, stopping once the activity has finished. */
  function Completions(a: Activity, n: nat, now: int): (r: Activity)
    requires ActivityValid(a)
    ensures ActivityValid(r)
    // the view stays valid and in step with the activity's level, and the record never drops
    ensures a.view.levelId == a.currentLevelId ==> r.view.levelId == r.currentLevelId
    ensures Valid(a.view) ==> Valid(r.view)
    ensures GetHighestUnlockedLevel(r.prefs) >= GetHighestUnlockedLevel(a.prefs)
    decreases n
  {
    if n == 0 || a.finished then a else Completions(OnLevelComplete(a, now), n - 1, now)
  }

  /**
   Starting on a real level, any number of completions keeps the level number
   within 1..10 and never lowers the record; the view always shows the
   current level from its start cell.
   */
  lemma {:induction false} CompletionsStayInRange(a: Activity, n: nat, now: int)
    requires ActivityValid(a)
    requires 1 <= a.currentLevelId <= LevelCount
    ensures 1 <= Completions(a, n, now).currentLevelId <= LevelCount
    ensures GetHighestUnlockedLevel(Completions(a, n, now).prefs) >= GetHighestUnlockedLevel(a.prefs)
    ensures n > 0 && !a.finished ==> GetHighestUnlockedLevel(Completions(a, n, now).prefs) > a.currentLevelId
    decreases n
  {
    if n > 0 && !a.finished {
      var b := OnLevelComplete(a, now);
      CompletionsStayInRange(b, n - 1, now);
    }
  }
}
