/** The records shared by every part of the application (types.ts), and the
    small derived notions that several components use. */
module Types {

  datatype Option<+T> = None | Some(value: T)

  /** A mood as stored: one of the five declared names, though the store itself
      does not validate it. */
  type MoodName = string

  const Excellent: MoodName := "excellent"
  const Good: MoodName := "good"
  const Neutral: MoodName := "neutral"
  const Fair: MoodName := "fair"
  const Poor: MoodName := "poor"

  /** The declared moods, in the order the mood form offers them. */
  const DeclaredMoods: seq<MoodName> := [Excellent, Good, Neutral, Fair, Poor]

  predicate IsDeclaredMood(m: MoodName) {
    m in DeclaredMoods
  }

  datatype MoodEntry = MoodEntry(
    id: string,
    timestamp: int,      // epoch milliseconds
    mood: MoodName,
    stressLevel: int,
    note: string)

  datatype Role = UserRole | ModelRole

  datatype ChatMessage = ChatMessage(role: Role, text: string)

  datatype Theme = Light | Dark

  datatype Preferences = Preferences(theme: Theme)

  /** `password` and `preferences` are optional keys: None is an absent key. */
  datatype User = User(
    id: string,
    name: string,
    email: string,
    password: Option<string>,
    preferences: Option<Preferences>)

  datatype DailyQuote = DailyQuote(text: string, author: string, date: string)

  /** `user.preferences?.theme === 'dark'`: an absent preferences object is light. */
  predicate PrefersDark(u: User) {
    u.preferences == Some(Preferences(Dark))
  }

  /** The record without its password key (`const { password: _, ...rest } = user`). */
  function WithoutPassword(u: User): (r: User)
    ensures r.password == None
    ensures r.(password := u.password) == u
  {
    u.(password := None)
  }

  /** Object spread `{ ...u, ...patch }`: every key the patch carries wins,
      a key the patch lacks keeps the stored value. */
  function Merge(u: User, patch: User): (r: User)
    ensures r.id == patch.id && r.name == patch.name && r.email == patch.email
    ensures patch.password.Some? ==> r.password == patch.password
    ensures patch.password.None? ==> r.password == u.password
    ensures patch.preferences.Some? ==> r.preferences == patch.preferences
    ensures patch.preferences.None? ==> r.preferences == u.preferences
    ensures patch.password.Some? && patch.preferences.Some? ==> r == patch
  {
    User(patch.id, patch.name, patch.email,
         if patch.password.Some? then patch.password else u.password,
         if patch.preferences.Some? then patch.preferences else u.preferences)
  }
}
