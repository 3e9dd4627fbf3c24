/** The browser's local storage as the application uses it: four keys, each
    holding a serialized value or absent. Serialization is taken to be exact
    (parsing what was written yields the value written). */
module Storage {
  import opened Types

  class LocalStore {
    var currentUser: Option<User>            // 'manas_current_user'
    var users: Option<seq<User>>             // 'manas_users'
    var moods: Option<seq<MoodEntry>>        // 'manas_moods'
    var dailyQuote: Option<DailyQuote>       // 'manas_daily_quote'

    /** A store holding the given values; None leaves that key absent. */
    constructor (currentUser: Option<User>, users: Option<seq<User>>,
                 moods: Option<seq<MoodEntry>>, dailyQuote: Option<DailyQuote>)
      ensures this.currentUser == currentUser && this.users == users
      ensures this.moods == moods && this.dailyQuote == dailyQuote
    {
      this.currentUser := currentUser;
      this.users := users;
      this.moods := moods;
      this.dailyQuote := dailyQuote;
    }

    /** `JSON.parse(getItem('manas_users') || '[]')`: an absent list reads as empty. */
    function UserList(): (r: seq<User>)
      reads this
      ensures users.None? ==> r == []
      ensures users.Some? ==> r == users.value
    {
      if users.Some? then users.value else []
    }
  }
}
