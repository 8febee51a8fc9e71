/** The progress messages the orchestrator streams to the client and the
    `Page` record they carry. The message classes are imported by the
    orchestrator from a module that is not part of this model, so their shape
    is taken from the constructor calls: one constructor per `type` tag. */
module Messages {
  import opened Wrappers

  /** A citation or search page: `url` is required, the rest optional. */
  datatype Page = Page(url: string, title: Option<string>, snippet: Option<string>, favicon: Option<string>)

  datatype Msg =
    | TurnStart(conversationId: string)
    | StepStart(title: string, description: string)
    | StepStatus(title: string, description: string)
    | StepEnd(title: string, description: string)
    | FetchStart(title: string, pages: seq<Page>)
    | FetchEnd(title: string, pages: seq<Page>)
    | AnswerStart(title: string, answerDescription: Option<string>)
    | AnswerDelta(title: string, delta: string)
    | AnswerEnd(title: string)
    | Answer(answer: string, citations: Option<seq<Page>>)

  /** The `type` discriminator each message is serialised with. */
  function TypeTag(m: Msg): string {
    match m
    case TurnStart(_) => "turn.start"
    case StepStart(_, _) => "step.start"
    case StepStatus(_, _) => "step.status"
    case StepEnd(_, _) => "step.end"
    case FetchStart(_, _) => "step.fetch.start"
    case FetchEnd(_, _) => "step.fetch.end"
    case AnswerStart(_, _) => "step.answer.start"
    case AnswerDelta(_, _) => "step.answer.delta"
    case AnswerEnd(_) => "step.answer.end"
    case Answer(_, _) => "answer"
  }

  function TypeTags(ms: seq<Msg>): (r: seq<string>)
    ensures |r| == |ms|
    ensures forall i :: 0 <= i < |ms| ==> r[i] == TypeTag(ms[i])
  {
    if |ms| == 0 then [] else TypeTags(ms[..|ms| - 1]) + [TypeTag(ms[|ms| - 1])]
  }

  /** Python truthiness of an optional string: present and non-empty. */
  predicate Truthy(s: Option<string>) {
    s.Some? && s.value != ""
  }

  /** The longest snippet `_build_page` keeps. */
  const SnippetMaxLen: nat := 100

  /** What every page the processor emits satisfies. */
  predicate WellFormed(p: Page) {
    && p.url != ""
    && (p.title.Some? ==> p.title.value != "")
    && (p.snippet.Some? ==> 0 < |p.snippet.value| <= SnippetMaxLen)
    && (p.favicon.Some? ==> p.favicon.value != "")
  }

  function Urls(ps: seq<Page>): (r: seq<string>)
    ensures |r| == |ps|
    ensures forall i :: 0 <= i < |ps| ==> r[i] == ps[i].url
  {
    if |ps| == 0 then [] else Urls(ps[..|ps| - 1]) + [ps[|ps| - 1].url]
  }

  /** `EventProcessor._build_page`: a page with the url, and each optional
      field only when it is truthy; the snippet is cut to its first
      `SnippetMaxLen` characters. Validation rejects an empty url. */
  function BuildPage(url: string, title: Option<string>, snippet: Option<string>, favicon: Option<string>): (r: Option<Page>)
    ensures r.Some? <==> url != ""
    ensures r.Some? ==> WellFormed(r.value) && r.value.url == url
    ensures r.Some? ==> (r.value.title.Some? <==> Truthy(title))
    ensures r.Some? && r.value.title.Some? ==> r.value.title == title
    ensures r.Some? ==> (r.value.favicon.Some? <==> Truthy(favicon))
    ensures r.Some? && r.value.favicon.Some? ==> r.value.favicon == favicon
    ensures r.Some? ==> (r.value.snippet.Some? <==> Truthy(snippet))
    ensures r.Some? && r.value.snippet.Some? ==>
              var cut := r.value.snippet.value;
              && cut <= snippet.value
              && |cut| == if |snippet.value| < SnippetMaxLen then |snippet.value| else SnippetMaxLen
  {
    if url == "" then None
    else
      Some(Page(
        url,
        if Truthy(title) then title else None,
        if Truthy(snippet) then
          Some(if |snippet.value| <= SnippetMaxLen then snippet.value else snippet.value[..SnippetMaxLen])
        else None,
        if Truthy(favicon) then favicon else None))
  }
}
