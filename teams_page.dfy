/** The Teams view of app/teams/page.tsx: the team list narrowed by a search,
    the messages of the selected channel, the composer, and the relative time
    shown on each message. The teams and messages start from the mock data
    (parameters); `now` is the clock reading. */
module TeamsPage {
  import opened Seqs
  import opened Text
  import opened Types
  import opened Store

  /** A team is listed when its name or one of its channels' names matches. */
  predicate TeamShown(t: TeamsTeam, query: string)
  {
    MatchesText(t.name, query) || Any(t.channels, (ch: TeamsChannel) => MatchesText(ch.name, query))
  }

  function FilteredTeams(teams: seq<TeamsTeam>, query: string): seq<TeamsTeam>
  {
    Filter(teams, t => TeamShown(t, query))
  }

  /** The messages of the selected channel, none when nothing is selected. */
  function ChannelMessages(messages: seq<TeamsMessage>, selected: Option<TeamsChannel>): seq<TeamsMessage>
  {
    if selected.None? then [] else Filter(messages, (m: TeamsMessage) => m.channelId == selected.value.id)
  }

  function OutgoingMessage(content: string, channel: TeamsChannel, now: nat): TeamsMessage
  {
    TeamsMessage("msg-" + NatToString(now), content, "You", "current-user", now, channel.name, channel.id, channel.teamId)
  }

  class Page {
    const teams: seq<TeamsTeam>
    var selectedChannel: Option<TeamsChannel>
    var messageInput: string
    var messages: seq<TeamsMessage>
    var searchQuery: string

    constructor (teams: seq<TeamsTeam>, initial: seq<TeamsMessage>)
      ensures this.teams == teams && selectedChannel.None? && messageInput == "" && messages == initial && searchQuery == ""
    {
      this.teams := teams;
      selectedChannel := None;
      messageInput := "";
      messages := initial;
      searchQuery := "";
    }

    method SelectChannel(ch: TeamsChannel)
      modifies this`selectedChannel
      ensures selectedChannel == Some(ch)
    {
      selectedChannel := Some(ch);
    }

    method SetMessageInput(s: string)
      modifies this`messageInput
      ensures messageInput == s
    {
      messageInput := s;
    }

    method SetSearchQuery(q: string)
      modifies this`searchQuery
      ensures searchQuery == q
    {
      searchQuery := q;
    }

    /** `handleSendMessage`: ignored for blank input or when no channel is
        selected; otherwise the message goes first and the input is cleared. */
    method HandleSendMessage(now: nat)
      modifies this`messages, this`messageInput
      ensures Trim(old(messageInput)) == "" || selectedChannel.None? ==>
        messages == old(messages) && messageInput == old(messageInput)
      ensures Trim(old(messageInput)) != "" && selectedChannel.Some? ==>
        messages == [OutgoingMessage(old(messageInput), selectedChannel.value, now)] + old(messages) && messageInput == ""
    {
      if Trim(messageInput) == "" || selectedChannel.None? {
        return;
      }
      messages := [OutgoingMessage(messageInput, selectedChannel.value, now)] + messages;
      messageInput := "";
    }
  }

  /** A team is listed iff its name or some channel name contains the query,
      and the listing keeps the teams' order. */
  lemma FilteredTeamsSpec(teams: seq<TeamsTeam>, query: string)
    ensures forall t :: t in FilteredTeams(teams, query) <==>
      t in teams && (MatchesText(t.name, query) || exists i :: 0 <= i < |t.channels| && MatchesText(t.channels[i].name, query))
    ensures IsSubsequence(FilteredTeams(teams, query), teams)
  {
    forall t ensures t in FilteredTeams(teams, query) <==> t in teams && TeamShown(t, query) {
      FilterMembership(teams, t => TeamShown(t, query), t);
    }
    FilterIsSubsequence(teams, t => TeamShown(t, query));
  }

  /** The channel view holds exactly the messages of the selected channel's id, in order. */
  lemma ChannelMessagesSpec(messages: seq<TeamsMessage>, selected: Option<TeamsChannel>)
    ensures selected.None? ==> ChannelMessages(messages, selected) == []
    ensures selected.Some? ==> forall m :: m in ChannelMessages(messages, selected) <==> m in messages && m.channelId == selected.value.id
    ensures IsSubsequence(ChannelMessages(messages, selected), messages)
  {
    if selected.Some? {
      forall m ensures m in ChannelMessages(messages, selected) <==> m in messages && m.channelId == selected.value.id {
        FilterMembership(messages, (m: TeamsMessage) => m.channelId == selected.value.id, m);
      }
      FilterIsSubsequence(messages, (m: TeamsMessage) => m.channelId == selected.value.id);
    }
  }

  /** A sent message carries the channel it was sent to and shows first in that channel's view. */
  lemma SentMessageShowsFirst(messages: seq<TeamsMessage>, content: string, ch: TeamsChannel, now: nat)
    ensures OutgoingMessage(content, ch, now).channelId == ch.id && OutgoingMessage(content, ch, now).teamId == ch.teamId
    ensures ChannelMessages([OutgoingMessage(content, ch, now)] + messages, Some(ch))
         == [OutgoingMessage(content, ch, now)] + ChannelMessages(messages, Some(ch))
  {
    assert ([OutgoingMessage(content, ch, now)] + messages)[1..] == messages;
  }

  // ------------------------------------------------------- formatTime

  /** The bucket `formatTime` puts an age (now minus timestamp, in ms) in. */
  datatype Age = JustNow | MinutesAgo(minutes: nat) | HoursAgo(hours: nat) | OnDate

  /** `Math.floor(diff / 60000)` and `Math.floor(diff / 3600000)`: with a positive
      divisor Dafny's division is floor division too. */
  function AgeOf(diffMs: int): Age
  {
    var mins := diffMs / 60000;
    var hours := diffMs / 3600000;
    if mins < 1 then JustNow
    else if mins < 60 then MinutesAgo(mins)
    else if hours < 24 then HoursAgo(hours)
    else OnDate
  }

  /** The text shown; the date bucket is rendered by the locale, outside this model. */
  function AgeText(age: Age, ja: bool): Option<string>
  {
    match age
    case JustNow => Some(if ja then "たった今" else "Just now")
    case MinutesAgo(m) => Some(NatToString(m) + (if ja then "分前" else "m ago"))
    case HoursAgo(h) => Some(NatToString(h) + (if ja then "時間前" else "h ago"))
    case OnDate => None
  }

  /** The buckets: under a minute (a clock skew into the future included), then
      whole minutes below an hour, whole hours below a day, then a date. */
  lemma AgeBuckets(diffMs: int)
    ensures diffMs < 60000 <==> AgeOf(diffMs) == JustNow
    ensures 60000 <= diffMs < 3600000 <==> AgeOf(diffMs).MinutesAgo?
    ensures 3600000 <= diffMs < 86400000 <==> AgeOf(diffMs).HoursAgo?
    ensures 86400000 <= diffMs <==> AgeOf(diffMs) == OnDate
    ensures AgeOf(diffMs).MinutesAgo? ==> var m := AgeOf(diffMs).minutes;
      1 <= m < 60 && m * 60000 <= diffMs < (m + 1) * 60000
    ensures AgeOf(diffMs).HoursAgo? ==> var h := AgeOf(diffMs).hours;
      1 <= h < 24 && h * 3600000 <= diffMs < (h + 1) * 3600000
  {
  }
}
