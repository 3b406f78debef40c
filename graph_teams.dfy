/** The Teams placeholder endpoint of app/api/graph/teams/route.ts. GET
    narrows the mock Teams messages by channel name, then keeps at most
    `limit` of them; POST only acknowledges. The query's `limit` arrives as a
    natural number here (absent or empty means 10). */
module GraphTeams {
  import opened Seqs
  import opened Text
  import opened Types
  import opened Api

  const DefaultLimit: nat := 10

  datatype Metadata = Metadata(source: string, note: string)
  datatype Listing = Listing(messages: seq<TeamsMessage>, metadata: Metadata)

  const MockMetadata := Metadata("mock", "This is placeholder data. Connect Microsoft Graph API for real Teams integration.")

  predicate InChannel(m: TeamsMessage, channel: Option<string>)
  {
    !Truthy(channel) || Contains(Lower(m.channelName), Lower(channel.value))
  }

  function Listed(source: seq<TeamsMessage>, channel: Option<string>, limit: Option<nat>): seq<TeamsMessage>
  {
    Take(Filter(source, m => InChannel(m, channel)), Pick(limit, DefaultLimit))
  }

  method Get(source: seq<TeamsMessage>, channel: Option<string>, limit: Option<nat>) returns (r: Listing)
    ensures r.messages == Listed(source, channel, limit)
    ensures r.metadata.source == "mock"
  {
    var n := Pick(limit, DefaultLimit);
    var messages := source;
    if Truthy(channel) {
      messages := Filter(messages, (m: TeamsMessage) => Contains(Lower(m.channelName), Lower(channel.value)));
      FilterExt(source, (m: TeamsMessage) => Contains(Lower(m.channelName), Lower(channel.value)), m => InChannel(m, channel));
    } else {
      FilterAll(source, m => InChannel(m, channel));
    }
    messages := Take(messages, n);
    r := Listing(messages, MockMetadata);
  }

  /** The first `limit` (10 by default) channel matches, or all of them when
      fewer match: an order-preserving selection of the source, each in a
      channel whose name contains the parameter, case-insensitively. */
  lemma ListedSpec(source: seq<TeamsMessage>, channel: Option<string>, limit: Option<nat>)
    ensures var n := Pick(limit, DefaultLimit); var f := Filter(source, m => InChannel(m, channel));
      |Listed(source, channel, limit)| == (if n < |f| then n else |f|)
    ensures |Listed(source, channel, limit)| <= Pick(limit, DefaultLimit)
    ensures limit.None? ==> |Listed(source, channel, limit)| <= 10
    ensures IsSubsequence(Listed(source, channel, limit), source)
    ensures Truthy(channel) ==> forall m :: m in Listed(source, channel, limit) ==>
      m in source && Contains(Lower(m.channelName), Lower(channel.value))
    ensures Listed(source, channel, limit) <= Filter(source, m => InChannel(m, channel))
  {
    var f := Filter(source, m => InChannel(m, channel));
    FilterIsSubsequence(source, m => InChannel(m, channel));
    TakeSubsequence(f, Pick(limit, DefaultLimit));
    SubsequenceTransitive(Take(f, Pick(limit, DefaultLimit)), f, source);
    forall m | m in Take(f, Pick(limit, DefaultLimit)) ensures m in source && InChannel(m, channel) {
      FilterMembership(source, m => InChannel(m, channel), m);
    }
  }

  datatype PostAck = PostAck(success: bool, messageId: string, note: string)

  /** POST acknowledges any well-formed body; a malformed one is a 500. */
  function Post<B>(body: Body<B>, now: nat): (r: Response<PostAck>)
    ensures body.Parsed? <==> r.Ok?
    ensures r.Ok? ==> r.status == 200 && r.value.success && r.value.messageId == NatToString(now)
    ensures r.Failure? ==> r == Failure(500, "Failed to send message")
  {
    match body
    case Malformed => Failure(500, "Failed to send message")
    case Parsed(_) => Ok(200, PostAck(true, NatToString(now), "Message would be sent to Teams in production"))
  }
}
