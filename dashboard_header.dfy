/** The greeting line of components/dashboard/dashboard-header.tsx: a
    greeting by the hour of the day and the viewer's first name. The hour is a
    parameter (the clock is outside the model). */
module DashboardHeader {
  import opened Seqs
  import opened Text
  import opened Types

  datatype DayPart = Morning | Afternoon | Evening

  function DayPartOf(hour: int): DayPart
  {
    if hour < 12 then Morning else if hour < 18 then Afternoon else Evening
  }

  function Greeting(hour: int, lang: Language): string
  {
    match DayPartOf(hour)
    case Morning => if lang == Language.Ja then "おはようございます" else "Good morning"
    case Afternoon => if lang == Language.Ja then "こんにちは" else "Good afternoon"
    case Evening => if lang == Language.Ja then "こんばんは" else "Good evening"
  }

  /** `user?.name.split(" ")[0]`, which renders nothing without a user. */
  function DisplayName(user: Option<User>): string
  {
    if user.Some? then FirstWord(user.value.name) else ""
  }

  /** Over the hours 0-23 the three greetings take consecutive, disjoint ranges. */
  lemma DayParts(hour: int)
    requires 0 <= hour <= 23
    ensures DayPartOf(hour) == Morning <==> hour < 12
    ensures DayPartOf(hour) == Afternoon <==> 12 <= hour < 18
    ensures DayPartOf(hour) == Evening <==> 18 <= hour
  {
  }

  /** The greeting changes only at noon and at six in the evening. */
  lemma GreetingMonotone(h1: int, h2: int, lang: Language)
    requires h1 <= h2
    ensures DayPartOf(h1) == Evening ==> DayPartOf(h2) == Evening
    ensures DayPartOf(h2) == Morning ==> DayPartOf(h1) == Morning
  {
  }

  /** The displayed name is the user's name up to its first space. */
  lemma DisplayNameIsFirstWord(u: User)
    ensures DisplayName(Some(u)) <= u.name && ' ' !in DisplayName(Some(u))
    ensures |DisplayName(Some(u))| < |u.name| ==> u.name[|DisplayName(Some(u))|] == ' '
    ensures ' ' !in u.name ==> DisplayName(Some(u)) == u.name
  {
    if ' ' !in u.name {
      FirstWordWhole(u.name);
    }
  }

  lemma {:induction false} FirstWordWhole(name: string)
    requires ' ' !in name
    ensures FirstWord(name) == name
  {
    if name != [] {
      FirstWordWhole(name[1..]);
    }
  }
}
