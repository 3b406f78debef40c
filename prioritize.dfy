/** The simulated priority classifier of app/api/ai/prioritize/route.ts:
    the first keyword group found in the lowered `title content` text decides
    the priority, and the priority decides the confidence (in hundredths). */
module Prioritize {
  import opened Seqs
  import opened Text
  import opened Types
  import opened Api

  /** The groups in the order the handler tests them; `general` has none. */
  function Keywords(p: Priority): seq<string>
  {
    match p
    case Urgent => ["urgent", "emergency", "緊急"]
    case Ceo => ["ceo", "executive", "社長"]
    case Deadline => ["deadline", "due", "締め切り"]
    case Important => ["important", "重要"]
    case Event => ["event", "meeting", "イベント"]
    case General => []
  }

  function Rank(p: Priority): nat
  {
    match p
    case Urgent => 0
    case Ceo => 1
    case Deadline => 2
    case Important => 3
    case Event => 4
    case General => 5
  }

  function Confidence(p: Priority): nat
  {
    match p
    case Urgent => 95
    case Ceo => 90
    case Deadline => 85
    case Important => 80
    case Event => 75
    case General => 70
  }

  predicate HasGroup(text: string, p: Priority)
  {
    Any(Keywords(p), k => Contains(text, k))
  }

  datatype Classification = Classification(priority: Priority, confidence: nat)

  /** The if/else-if chain. */
  function Classify(text: string): (c: Classification)
    ensures c.confidence == Confidence(c.priority)
  {
    if HasGroup(text, Priority.Urgent) then Classification(Priority.Urgent, 95)
    else if HasGroup(text, Priority.Ceo) then Classification(Priority.Ceo, 90)
    else if HasGroup(text, Priority.Deadline) then Classification(Priority.Deadline, 85)
    else if HasGroup(text, Priority.Important) then Classification(Priority.Important, 80)
    else if HasGroup(text, Priority.Event) then Classification(Priority.Event, 75)
    else Classification(Priority.General, 70)
  }

  /** A missing `title` or `content` prints as `undefined` in the template literal. */
  function Field(v: Option<string>): string
  {
    if v.Some? then v.value else "undefined"
  }

  /** `${title} ${content}`.toLowerCase() */
  function ClassifiedText(title: Option<string>, content: Option<string>): string
  {
    Lower(Field(title) + " " + Field(content))
  }

  datatype PrioritizeBody = PrioritizeBody(title: Option<string>, content: Option<string>)
  datatype Verdict = Verdict(priority: Priority, confidence: nat, reasoning: string)

  function Handle(body: Body<PrioritizeBody>): (r: Response<Verdict>)
    ensures body.Malformed? ==> r == Failure(500, "Prioritization failed")
    ensures body.Parsed? ==>
      && r.Ok? && r.status == 200
      && r.value.priority == Classify(ClassifiedText(body.value.title, body.value.content)).priority
      && r.value.confidence == Confidence(r.value.priority)
      && r.value.reasoning == "Detected keywords suggesting " + PriorityName(r.value.priority) + " priority"
  {
    match body
    case Malformed => Failure(500, "Prioritization failed")
    case Parsed(b) =>
      var c := Classify(ClassifiedText(b.title, b.content));
      Ok(200, Verdict(c.priority, c.confidence, "Detected keywords suggesting " + PriorityName(c.priority) + " priority"))
  }

  /** Strict precedence: the result is the first group, in rank order, whose
      keyword occurs; `general` exactly when none does. */
  lemma ClassifyPrecedence(text: string, p: Priority)
    ensures Classify(text).priority == p <==>
      (p == Priority.General || HasGroup(text, p)) && forall q :: Rank(q) < Rank(p) ==> !HasGroup(text, q)
  {
    forall q ensures Rank(q) < Rank(Classify(text).priority) ==> !HasGroup(text, q) {
    }
  }

  /** Keyword matching is by substring: any text with `due` inside a word is a
      deadline unless an urgent or ceo keyword also occurs. */
  lemma DueInsideWord(before: string, after: string)
    requires !HasGroup(before + "due" + after, Priority.Urgent) && !HasGroup(before + "due" + after, Priority.Ceo)
    ensures Classify(before + "due" + after) == Classification(Priority.Deadline, 85)
  {
    ContainsMiddle(before, "due", after);
    assert Keywords(Priority.Deadline)[1] == "due";
  }

  /** Text with no keyword at all is (`general`, 70). */
  lemma NoKeywordIsGeneral(text: string)
    requires forall p :: !HasGroup(text, p)
    ensures Classify(text) == Classification(Priority.General, 70)
  {
    assert !HasGroup(text, Priority.Urgent);
    assert !HasGroup(text, Priority.Ceo);
    assert !HasGroup(text, Priority.Deadline);
    assert !HasGroup(text, Priority.Important);
    assert !HasGroup(text, Priority.Event);
  }

  /** The classification ignores the case of the title and content. */
  lemma CaseInsensitive(title: string, content: string)
    ensures ClassifiedText(Some(Lower(title)), Some(Lower(content))) == ClassifiedText(Some(title), Some(content))
  {
    LowerAppend3(title, " ", content);
    LowerAppend3(Lower(title), " ", Lower(content));
    LowerIdempotent(title);
    LowerIdempotent(content);
  }

  lemma LowerAppend3(a: string, b: string, c: string)
    ensures Lower(a + b + c) == Lower(a) + Lower(b) + Lower(c)
  {
    LowerAppend(a + b, c);
    LowerAppend(a, b);
  }
}
