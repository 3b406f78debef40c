/** The keyword chatbot of app/api/chatbot/route.ts. The lowered message
    selects one of four replies, tested in a fixed order; the announcement
    reply lists the first three announcements visible to the asker's
    department, the event reply the first three events. The mock lists are
    parameters. */
module Chatbot {
  import opened Seqs
  import opened Text
  import opened Types
  import opened Api

  datatype Topic = AnnouncementsTopic | EventsTopic | HelpTopic | OtherTopic

  /** The branch a lowered message takes. */
  function TopicOf(lowerMessage: string): Topic
  {
    if Contains(lowerMessage, "announcement") || Contains(lowerMessage, "お知らせ") then AnnouncementsTopic
    else if Contains(lowerMessage, "event") || Contains(lowerMessage, "イベント") then EventsTopic
    else if Contains(lowerMessage, "help") || Contains(lowerMessage, "ヘルプ") then HelpTopic
    else OtherTopic
  }

  /** `!department || a.department === "all" || a.department === department` */
  predicate VisibleTo(a: Announcement, department: Option<string>)
  {
    !Truthy(department) || a.department == Department.All || DepartmentName(a.department) == department.value
  }

  function RelevantAnnouncements(anns: seq<Announcement>, department: Option<string>): seq<Announcement>
  {
    Take(Filter(anns, a => VisibleTo(a, department)), 3)
  }

  /** `• ${x.titleJa || x.title}` in Japanese, `• ${x.title}` otherwise, one
      line per announcement or event. */
  function TitleLines<T>(s: seq<T>, title: T -> string, titleJa: T -> string, ja: bool): (lines: seq<string>)
    ensures |lines| == |s|
    ensures forall i :: 0 <= i < |s| ==> lines[i] == "• " + (if ja && titleJa(s[i]) != "" then titleJa(s[i]) else title(s[i]))
  {
    if s == [] then []
    else ["• " + (if ja && titleJa(s[0]) != "" then titleJa(s[0]) else title(s[0]))] + TitleLines(s[1..], title, titleJa, ja)
  }

  const SuggestedActions: seq<string> := ["View announcements", "Check events", "Get help"]

  function ReplyText(topic: Topic, ja: bool, anns: seq<Announcement>, evs: seq<Event>, department: Option<string>): string
  {
    match topic
    case AnnouncementsTopic =>
      (if ja then "最新のお知らせは以下の通りです：\n\n" else "Here are the latest announcements:\n\n")
      + Join(TitleLines(RelevantAnnouncements(anns, department), (a: Announcement) => a.title, (a: Announcement) => a.titleJa, ja), "\n")
    case EventsTopic =>
      (if ja then "今後のイベント：\n\n" else "Upcoming events:\n\n")
      + Join(TitleLines(Take(evs, 3), (e: Event) => e.title, (e: Event) => e.titleJa, ja), "\n")
    case HelpTopic =>
      if ja then "お手伝いできることは以下の通りです：\n\n• お知らせの検索\n• イベント情報\n• 部署情報\n• 会社ポリシー"
      else "I can help you with:\n\n• Finding announcements\n• Event information\n• Department info\n• Company policies"
    case OtherTopic =>
      if ja then "ご質問ありがとうございます。お知らせ、イベント、またはヘルプについてお尋ねください。"
      else "Thank you for your question. Please ask about announcements, events, or type \"help\" for more options."
  }

  /** `message` is required (`toLowerCase` of a missing one throws); `language`
      defaults to `"en"`, and only `"ja"` selects Japanese. */
  datatype ChatBody = ChatBody(message: Option<string>, language: Option<string>, department: Option<string>)
  datatype ChatReply = ChatReply(response: string, suggestedActions: seq<string>)

  function Handle(body: Body<ChatBody>, anns: seq<Announcement>, evs: seq<Event>): (r: Response<ChatReply>)
    ensures (body.Malformed? || body.value.message.None?) <==> r == Failure(500, "Chatbot error")
    ensures r.Ok? ==> r.status == 200 && r.value.suggestedActions == SuggestedActions
  {
    if body.Malformed? || body.value.message.None? then Failure(500, "Chatbot error")
    else
      var b := body.value;
      var ja := b.language == Some("ja");
      Ok(200, ChatReply(ReplyText(TopicOf(Lower(b.message.value)), ja, anns, evs, b.department), SuggestedActions))
  }

  /** The branches in order: announcements before events before help before the fallback. */
  lemma TopicPrecedence(m: string)
    ensures TopicOf(m) == AnnouncementsTopic <==> Contains(m, "announcement") || Contains(m, "お知らせ")
    ensures TopicOf(m) == EventsTopic <==>
      !(Contains(m, "announcement") || Contains(m, "お知らせ")) && (Contains(m, "event") || Contains(m, "イベント"))
    ensures TopicOf(m) == HelpTopic <==>
      !(Contains(m, "announcement") || Contains(m, "お知らせ")) && !(Contains(m, "event") || Contains(m, "イベント"))
      && (Contains(m, "help") || Contains(m, "ヘルプ"))
  {
  }

  /** The announcement reply lists the first three visible announcements (all of
      them when fewer are visible), in mock order; given a department, each is
      that department's or `all`; without one, they are simply the first three. */
  lemma RelevantAnnouncementsSpec(anns: seq<Announcement>, department: Option<string>)
    ensures var f := Filter(anns, a => VisibleTo(a, department));
      && |RelevantAnnouncements(anns, department)| == (if 3 < |f| then 3 else |f|)
      && RelevantAnnouncements(anns, department) <= f
    ensures IsSubsequence(RelevantAnnouncements(anns, department), anns)
    ensures forall a :: a in RelevantAnnouncements(anns, department) ==> a in anns && VisibleTo(a, department)
    ensures Truthy(department) ==> forall a :: a in RelevantAnnouncements(anns, department) ==>
      a.department == Department.All || DepartmentName(a.department) == department.value
    ensures !Truthy(department) ==> RelevantAnnouncements(anns, department) == Take(anns, 3)
  {
    var f := Filter(anns, a => VisibleTo(a, department));
    FilterIsSubsequence(anns, a => VisibleTo(a, department));
    TakeSubsequence(f, 3);
    SubsequenceTransitive(Take(f, 3), f, anns);
    forall a | a in Take(f, 3) ensures a in anns && VisibleTo(a, department) {
      FilterMembership(anns, a => VisibleTo(a, department), a);
    }
    if !Truthy(department) {
      FilterAll(anns, a => VisibleTo(a, department));
    }
  }

  /** The event reply ignores the department and the announcements: only the
      first three events decide it. */
  lemma EventReplyIgnoresDepartment(ja: bool, anns: seq<Announcement>, evs: seq<Event>, d1: Option<string>,
                                    anns2: seq<Announcement>, evs2: seq<Event>, d2: Option<string>)
    ensures ReplyText(EventsTopic, ja, anns, evs, d1) == ReplyText(EventsTopic, ja, anns2, evs, d2)
    ensures Take(evs2, 3) == Take(evs, 3) ==>
      ReplyText(EventsTopic, ja, anns2, evs2, d2) == ReplyText(EventsTopic, ja, anns, evs, d1)
  {
  }

  /** Matching ignores the case of the message's ASCII letters. */
  lemma CaseInsensitive(body: ChatBody, anns: seq<Announcement>, evs: seq<Event>)
    requires body.message.Some?
    ensures Handle(Parsed(body.(message := Some(Lower(body.message.value)))), anns, evs) == Handle(Parsed(body), anns, evs)
  {
    LowerIdempotent(body.message.value);
  }

  /** Without a `language` the reply is the English one. */
  lemma LanguageDefaultsToEnglish(body: ChatBody, anns: seq<Announcement>, evs: seq<Event>)
    requires body.message.Some?
    ensures Handle(Parsed(body.(language := None)), anns, evs) == Handle(Parsed(body.(language := Some("en"))), anns, evs)
  {
  }
}
