/** The application root (App.tsx): the session, the mood log and the active
    tab, written through to local storage, and the single "dark" flag on the
    document root derived from the signed-in user's theme. */
module App {
  import opened Types
  import opened Storage
  import Auth
  import MoodTracker

  /** The closed set of views the root switches between. */
  datatype Tab = Home | LogMood | History | Chat | Explore | Meditate | Resources | Profile

  const DayMs: int := 86400000

  /** The first-run journal: four entries, one per day over the four days
      before `now`, oldest first. */
  function SeedEntries(now: int): (s: seq<MoodEntry>)
    ensures |s| == 4
    ensures s[0] == MoodEntry("1", now - DayMs * 4, Neutral, 3, "Feeling a bit tired today.")
    ensures s[1] == MoodEntry("2", now - DayMs * 3, Good, 2, "Productive day at work.")
    ensures s[2] == MoodEntry("3", now - DayMs * 2, Excellent, 1, "Spent time with friends!")
    ensures s[3] == MoodEntry("4", now - DayMs * 1, Fair, 4, "A bit stressed out.")
  {
    [ MoodEntry("1", now - DayMs * 4, Neutral, 3, "Feeling a bit tired today."),
      MoodEntry("2", now - DayMs * 3, Good, 2, "Productive day at work."),
      MoodEntry("3", now - DayMs * 2, Excellent, 1, "Spent time with friends!"),
      MoodEntry("4", now - DayMs * 1, Fair, 4, "A bit stressed out.") ]
  }

  /** The seeded journal is in chronological order, lies wholly in the past,
      a day apart, and holds only declared moods and stress levels 1..5. */
  lemma SeedIsChronological(now: int)
    ensures var s := SeedEntries(now);
            && (forall i, j :: 0 <= i < j < |s| ==> s[i].timestamp < s[j].timestamp)
            && (forall i :: 0 <= i < |s| ==> s[i].timestamp == now - DayMs * (|s| - i))
            && (forall i :: 0 <= i < |s| ==> IsDeclaredMood(s[i].mood) && 1 <= s[i].stressLevel <= 5)
  {
    var s := SeedEntries(now);
    forall i | 0 <= i < |s| ensures s[i].timestamp == now - DayMs * (|s| - i) {
      if i == 0 { } else if i == 1 { } else if i == 2 { } else { }
    }
  }

  /** `[...entries].reverse()`: the history view, newest entry first. */
  function NewestFirst(s: seq<MoodEntry>): (r: seq<MoodEntry>)
    ensures |r| == |s|
    ensures forall k :: 0 <= k < |s| ==> r[k] == s[|s| - 1 - k]
  {
    if s == [] then [] else [s[|s| - 1]] + NewestFirst(s[..|s| - 1])
  }

  /** An appended entry heads the history view, above the earlier ones. */
  lemma NewestFirstAppend(s: seq<MoodEntry>, e: MoodEntry)
    ensures NewestFirst(s + [e]) == [e] + NewestFirst(s)
  {
    var r, t := NewestFirst(s + [e]), [e] + NewestFirst(s);
    assert |r| == |t|;
    forall k | 0 <= k < |r| ensures r[k] == t[k] {
      if k > 0 {
        assert r[k] == (s + [e])[|s| - k];
      }
    }
  }

  /** Reversing the history view gives back the journal. */
  lemma NewestFirstInvolutive(s: seq<MoodEntry>)
    ensures NewestFirst(NewestFirst(s)) == s
  {
    var r := NewestFirst(NewestFirst(s));
    assert |r| == |s|;
    forall k | 0 <= k < |s| ensures r[k] == s[k] {
      assert NewestFirst(s)[|s| - 1 - k] == s[k];
    }
  }

  /** `users.map(u => u.id === updated.id ? { ...u, ...updated } : u)`. */
  function MergeUsers(users: seq<User>, updated: User): (r: seq<User>)
    ensures |r| == |users|
    ensures forall i :: 0 <= i < |users| && users[i].id != updated.id ==> r[i] == users[i]
    ensures forall i :: 0 <= i < |users| && users[i].id == updated.id ==> r[i] == Merge(users[i], updated)
  {
    if users == [] then []
    else
      var head := if users[0].id == updated.id then Merge(users[0], updated) else users[0];
      [head] + MergeUsers(users[1..], updated)
  }

  /** Saving the same profile twice is the same as saving it once. */
  lemma {:induction false} MergeUsersIdempotent(users: seq<User>, updated: User)
    ensures MergeUsers(MergeUsers(users, updated), updated) == MergeUsers(users, updated)
  {
    if users != [] {
      MergeUsersIdempotent(users[1..], updated);
      assert MergeUsers(users, updated)[1..] == MergeUsers(users[1..], updated);
    }
  }

  /** The session record carries no password, so a profile update keeps every
      stored password, and with it every user's ability to log in under an
      unchanged email. */
  lemma {:induction false} MergeKeepsPasswords(users: seq<User>, updated: User, i: nat)
    requires updated.password == None && i < |users|
    ensures MergeUsers(users, updated)[i].password == users[i].password
    ensures users[i].id != updated.id || users[i].email == updated.email ==>
              forall p :: Auth.Matches(users[i], users[i].email, p) ==>
                          Auth.Matches(MergeUsers(users, updated)[i], users[i].email, p)
  {
  }

  class AppState {
    const store: LocalStore
    var activeTab: Tab
    var moodEntries: seq<MoodEntry>
    var user: Option<User>
    var isCheckingAuth: bool
    var dark: bool   // the 'dark' class on the document root

    /** The dark flag is on exactly when a user is signed in whose theme is
        dark; once loaded, the session and the journal are the stored ones
        (write-through). */
    ghost predicate Valid()
      reads this, store
    {
      && dark == (user.Some? && PrefersDark(user.value))
      && (isCheckingAuth ==> user == None && moodEntries == [])
      && (!isCheckingAuth ==> store.currentUser == user && store.moods == Some(moodEntries))
    }

    /** Mounting: tab 'home', empty journal, no user, still checking. */
    constructor (store: LocalStore)
      ensures this.store == store && Valid()
      ensures activeTab == Home && moodEntries == [] && user == None
      ensures isCheckingAuth && !dark
    {
      this.store := store;
      activeTab := Home;
      moodEntries := [];
      user := None;
      isCheckingAuth := true;
      dark := false;
    }

    /** The mount effect: restore the stored session and apply its theme, then
        load the stored journal unchanged or, if none is stored, seed and
        persist the four first-run entries. */
    method Load(now: int)
      requires Valid()
      modifies this`user, this`dark, this`isCheckingAuth, this`moodEntries, store`moods
      ensures Valid() && !isCheckingAuth && activeTab == old(activeTab)
      ensures old(store.currentUser).Some? ==> user == old(store.currentUser)
      ensures old(store.currentUser).None? ==> user == old(user)
      ensures dark == (user.Some? && PrefersDark(user.value))
      ensures old(store.moods).Some? ==> moodEntries == old(store.moods).value && store.moods == old(store.moods)
      ensures old(store.moods).None? ==> moodEntries == SeedEntries(now) && store.moods == Some(SeedEntries(now))
    {
      match store.currentUser {
        case Some(current) =>
          user := Some(current);
          dark := PrefersDark(current);
        case None =>
      }
      isCheckingAuth := false;
      match store.moods {
        case Some(saved) =>
          moodEntries := saved;
        case None =>
          var seed := SeedEntries(now);
          moodEntries := seed;
          store.moods := Some(seed);
      }
    }

    /** `handleUpdateUser`: the profile becomes the session record in memory
        and in storage, is merged by id into the stored user list (absent list
        read as empty), and its theme is applied. */
    method UpdateUser(updated: User)
      requires Valid() && !isCheckingAuth
      modifies this`user, this`dark, store`currentUser, store`users
      ensures Valid()
      ensures user == Some(updated) && store.currentUser == Some(updated)
      ensures store.users == Some(MergeUsers(old(store.UserList()), updated))
      ensures dark <==> PrefersDark(updated)
    {
      user := Some(updated);
      store.currentUser := Some(updated);
      var users := store.UserList();
      store.users := Some(MergeUsers(users, updated));
      if PrefersDark(updated) {
        dark := true;
      } else {
        dark := false;
      }
    }

    /** `handleAddMood`: append-only, persisted, back to 'home'. */
    method AddMood(entry: MoodEntry)
      requires Valid() && !isCheckingAuth
      modifies this`moodEntries, this`activeTab, store`moods
      ensures Valid()
      ensures moodEntries == old(moodEntries) + [entry]
      ensures store.moods == Some(moodEntries) && activeTab == Home
      ensures NewestFirst(moodEntries) == [entry] + NewestFirst(old(moodEntries))
    {
      var updated := moodEntries + [entry];
      moodEntries := updated;
      store.moods := Some(updated);
      activeTab := Home;
      NewestFirstAppend(old(moodEntries), entry);
    }

    /** `handleLogout`: drop the session key and the user, back to 'home',
        light theme; the stored user list is not touched. */
    method Logout()
      requires Valid() && !isCheckingAuth
      modifies this`user, this`activeTab, this`dark, store`currentUser
      ensures Valid()
      ensures store.currentUser == None && user == None && activeTab == Home && !dark
      ensures store.users == old(store.users) && moodEntries == old(moodEntries)
    {
      store.currentUser := None;
      user := None;
      activeTab := Home;
      dark := false;
    }

    /** The callback handed to the sign-in form, which is shown only while
        nobody is signed in (so the theme is light) and has already stored `u`
        as the session record: adopt it and apply a dark theme. */
    method OnLogin(u: User)
      requires !isCheckingAuth && user == None && !dark
      requires store.currentUser == Some(u) && store.moods == Some(moodEntries)
      modifies this`user, this`dark
      ensures Valid() && user == Some(u) && dark == PrefersDark(u)
    {
      user := Some(u);
      if PrefersDark(u) {
        dark := true;
      }
    }

    /** The mood form's submit, which hands its entry to `handleAddMood`:
        nothing is logged without a picked mood. */
    method SubmitMood(form: MoodTracker.MoodForm, id: string, now: int) returns (entry: Option<MoodEntry>)
      requires Valid() && !isCheckingAuth && form.Valid()
      modifies form, this`moodEntries, this`activeTab, store`moods
      ensures Valid() && form.Valid()
      ensures entry.None? <==> old(form.selectedMood).None?
      ensures entry.None? ==>
                && moodEntries == old(moodEntries) && activeTab == old(activeTab)
                && form.selectedMood == None && form.stressLevel == old(form.stressLevel)
                && form.note == old(form.note)
      ensures entry.Some? ==>
                && entry.value == MoodEntry(id, now, old(form.selectedMood).value, old(form.stressLevel), old(form.note))
                && moodEntries == old(moodEntries) + [entry.value] && store.moods == Some(moodEntries)
                && activeTab == Home
                && form.selectedMood == None && form.stressLevel == MoodTracker.InitialStress && form.note == ""
      ensures entry.Some? ==> 1 <= entry.value.stressLevel <= 5 && IsDeclaredMood(entry.value.mood)
    {
      entry := form.Submit(id, now);
      if entry.Some? {
        AddMood(entry.value);
      }
    }

    /** A navigation button. No button in App.tsx selects `Explore`, so that
        view is reachable only through this method, not from the rendered UI. */
    method SelectTab(t: Tab)
      modifies this`activeTab
      ensures activeTab == t
    {
      activeTab := t;
    }

    /** The sign-in screen, shown while nobody is signed in: one submit of the
        form, and on success the login callback. Whoever signs in, the theme
        afterwards is that user's own stored preference. */
    method SubmitAuth(form: Auth.AuthForm, newId: string) returns (loggedIn: Option<User>)
      requires Valid() && !isCheckingAuth && user == None
      modifies form`error, store`users, store`currentUser, this`user, this`dark
      ensures Valid() && user == loggedIn
      ensures var r := Auth.Submitted(form.isLogin, old(store.UserList()), newId, form.name, form.email, form.password);
              && (loggedIn.Some? <==> r.Success?)
              && (r.Success? ==> loggedIn == Some(r.current) && form.error == "")
              && (r.Failure? ==> form.error == Auth.ErrorMessage(r.error))
              && store.users == (if !form.isLogin && r.Success? then Some(r.users) else old(store.users))
      ensures loggedIn.Some? ==> dark == PrefersDark(loggedIn.value) && loggedIn.value.password == None
      ensures loggedIn.None? ==> store.currentUser == old(store.currentUser) && store.users == old(store.users)
    {
      loggedIn := form.Submit(store, newId);
      if loggedIn.Some? {
        OnLogin(loggedIn.value);
      }
    }
  }
}
