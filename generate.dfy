/** The simulated content generator of app/api/ai/generate/route.ts: three
    string templates chosen by `type`, each in an English and a Japanese form
    chosen by `targetLanguage`. A missing `content` prints as `undefined` in a
    template literal, but makes `substring` throw. */
module Generate {
  import opened Seqs
  import opened Types
  import opened Api

  datatype GenerateBody = GenerateBody(content: Option<string>, kind: Option<string>, targetLanguage: Option<string>)
  datatype Generated = Generated(generatedContent: string, confidence: nat, suggestedPriority: Priority)

  const TranslatePrefixJa := "【翻訳】"
  const TranslatePrefixEn := "[Translated] "
  const SummaryPrefixJa := "【要約】"
  const SummaryPrefixEn := "[Summary] "
  const AnnouncementHeaderJa := "【AI生成お知らせ】\n\n"
  const AnnouncementFooterJa := "\n\n詳細については、担当部署にお問い合わせください。"
  const AnnouncementHeaderEn := "[AI Generated Announcement]\n\n"
  const AnnouncementFooterEn := "\n\nFor more details, please contact the relevant department."

  function Field(v: Option<string>): string
  {
    if v.Some? then v.value else "undefined"
  }

  /** `content.substring(0, 100)` */
  function Prefix100(s: string): (r: string)
    ensures |r| == if |s| < 100 then |s| else 100
    ensures r <= s
  {
    if |s| < 100 then s else s[..100]
  }

  function Translated(content: string, ja: bool): string
  {
    (if ja then TranslatePrefixJa else TranslatePrefixEn) + content
  }

  function Summary(content: string, ja: bool): string
  {
    (if ja then SummaryPrefixJa else SummaryPrefixEn) + Prefix100(content) + "..."
  }

  function AnnouncementText(content: string, ja: bool): string
  {
    if ja then AnnouncementHeaderJa + content + AnnouncementFooterJa
    else AnnouncementHeaderEn + content + AnnouncementFooterEn
  }

  function Handle(body: Body<GenerateBody>): (r: Response<Generated>)
    ensures r.Failure? <==> body.Malformed? || (body.value.kind == Some("summarize") && body.value.content.None?)
    ensures r.Failure? ==> r == Failure(500, "Generation failed")
    ensures r.Ok? ==> r.status == 200 && r.value.confidence == 95 && r.value.suggestedPriority == Priority.General
    ensures r.Ok? && body.value.kind !in {Some("translate"), Some("summarize"), Some("announcement")} ==> r.value.generatedContent == ""
  {
    if body.Malformed? then Failure(500, "Generation failed")
    else
      var b := body.value;
      var ja := b.targetLanguage == Some("ja");
      if b.kind == Some("translate") then Ok(200, Generated(Translated(Field(b.content), ja), 95, Priority.General))
      else if b.kind == Some("summarize") then
        if b.content.None? then Failure(500, "Generation failed")
        else Ok(200, Generated(Summary(b.content.value, ja), 95, Priority.General))
      else if b.kind == Some("announcement") then Ok(200, Generated(AnnouncementText(Field(b.content), ja), 95, Priority.General))
      else Ok(200, Generated("", 95, Priority.General))
  }

  /** A translation is the language's marker followed by the content, unchanged. */
  lemma TranslatedShape(content: string, ja: bool)
    ensures var r := Translated(content, ja); var p := if ja then TranslatePrefixJa else TranslatePrefixEn;
      |r| == |p| + |content| && r[..|p|] == p && r[|p|..] == content
  {
  }

  /** A summary is the marker, the first min(100, |content|) characters, and "...". */
  lemma SummaryShape(content: string, ja: bool)
    ensures var r := Summary(content, ja); var p := if ja then SummaryPrefixJa else SummaryPrefixEn;
      var n := if |content| < 100 then |content| else 100;
      |r| == |p| + n + 3 && r[..|p|] == p && r[|p|..|p| + n] == content[..n] && r[|p| + n..] == "..."
  {
  }

  /** The generated announcement is the content between the language's fixed
      header and footer, so the content can be read back out of it. */
  lemma AnnouncementRoundTrip(content: string, ja: bool)
    ensures var r := AnnouncementText(content, ja);
      var h := if ja then AnnouncementHeaderJa else AnnouncementHeaderEn;
      var f := if ja then AnnouncementFooterJa else AnnouncementFooterEn;
      |r| == |h| + |content| + |f| && r[..|h|] == h && r[|h|..|h| + |content|] == content && r[|h| + |content|..] == f
  {
  }
}
