/**
 * The session controller of the StockBot page: the state cells of the Home
 * component and its three handlers. The two HTTP calls are replaced by their
 * outcomes, passed in as parameters; what each handler would send is returned.
 */
module Home {
  import opened Wrappers
  import opened Lines
  import opened Progress
  import opened Decimal

  /** The page starts with this many URL fields, and no handler adds or removes one. */
  const SlotCount: nat := 3

  const EmptyQuestionAlert: string := "Please enter a question"
  const FetchErrorAlert: string := "Error fetching answer. Check your backend logs."

  /** What the question endpoint answered: an answer and its optional sources string, or any failure. */
  datatype AskOutcome = Answered(answer: string, sources: Option<string>) | AskFailed

  /** What a handler shows the user in a dialog, if anything. */
  datatype Notice = Silent | Alert(message: string)

  /**
   * The sources list built from the response: a present, non-empty sources
   * string is split on newlines; an absent or empty one gives no sources.
   */
  function ParseSources(sources: Option<string>): (r: seq<string>)
    ensures r == [] <==> sources.None? || sources.value == ""
    ensures r != [] ==> JoinLines(r) == sources.value
    ensures forall i :: 0 <= i < |r| ==> NoNewline(r[i])
  {
    match sources
    case None => []
    case Some(s) =>
      if s == "" then []
      else
        JoinSplitLines(s);
        SplitLinesNoNewline(s);
        SplitLines(s)
  }

  class Session {
    var urls: seq<string>
    var question: string
    var answer: string
    var sources: seq<string>
    var loading: bool
    var progress: seq<string>

    ghost predicate Valid()
      reads this
    {
      |urls| == SlotCount
    }

    /** A fresh page: three empty URL fields, nothing asked or answered, an empty log, not busy. */
    constructor ()
      ensures Valid()
      ensures urls == ["", "", ""]
      ensures question == "" && answer == "" && sources == []
      ensures !loading && progress == []
    {
      urls := ["", "", ""];
      question := "";
      answer := "";
      sources := [];
      loading := false;
      progress := [];
    }

    /** Edit one URL field: that slot takes the new text, every other slot and field is kept. */
    method SetUrl(index: nat, value: string)
      requires Valid()
      requires index < |urls|
      modifies this
      ensures Valid()
      ensures |urls| == |old(urls)| && urls[index] == value
      ensures forall j :: 0 <= j < |urls| && j != index ==> urls[j] == old(urls)[j]
      ensures question == old(question) && answer == old(answer) && sources == old(sources)
      ensures loading == old(loading) && progress == old(progress)
    {
      var newUrls := urls;
      newUrls := newUrls[index := value];
      urls := newUrls;
    }

    /** Edit the question field; nothing else changes. */
    method SetQuestion(value: string)
      requires Valid()
      modifies this
      ensures Valid()
      ensures question == value
      ensures urls == old(urls) && answer == old(answer) && sources == old(sources)
      ensures loading == old(loading) && progress == old(progress)
    {
      question := value;
    }

    /**
     * Submit the URLs for ingestion. The request carries every slot, empty ones
     * included. Whatever the log held before, it ends as exactly the entries of
     * this run; the busy flag is clear again at the end.
     */
    method ProcessUrls(outcome: IngestOutcome) returns (request: seq<string>)
      requires Valid()
      modifies this
      ensures Valid()
      ensures request == old(urls)
      ensures progress == IngestLog(outcome)
      ensures !loading
      ensures urls == old(urls) && question == old(question)
      ensures answer == old(answer) && sources == old(sources)
    {
      loading := true;
      progress := [DataLoadingStarted];
      request := urls;
      match outcome {
        case Ingested(count) =>
          progress := progress + [TextSplitterStarted];
          progress := progress + [EmbeddingStarted];
          progress := progress + [DoneEntry(count)];
        case IngestFailed =>
          progress := progress + [IngestError];
      }
      loading := false;
    }

    /**
     * Ask the current question. An empty question is refused with an alert: no
     * request is sent and no field changes. Otherwise the question is sent; an
     * answer replaces the answer and the sources, a failure keeps both and
     * alerts. The busy flag is clear again at the end.
     */
    method AskQuestion(outcome: AskOutcome) returns (request: Option<string>, notice: Notice)
      requires Valid()
      modifies this
      ensures Valid()
      ensures old(question) == "" ==>
        request == None && notice == Alert(EmptyQuestionAlert) && unchanged(this)
      ensures old(question) != "" ==> request == Some(old(question)) && !loading
      ensures old(question) != "" && outcome.Answered? ==>
        answer == outcome.answer && sources == ParseSources(outcome.sources) && notice == Silent
      ensures old(question) != "" && outcome.AskFailed? ==>
        answer == old(answer) && sources == old(sources) && notice == Alert(FetchErrorAlert)
      ensures urls == old(urls) && question == old(question) && progress == old(progress)
    {
      // `!question` holds of a string exactly when it is empty.
      if question == "" {
        request, notice := None, Alert(EmptyQuestionAlert);
        return;
      }
      loading := true;
      request := Some(question);
      match outcome {
        case Answered(a, s) =>
          answer := a;
          sources := ParseSources(s);
          notice := Silent;
        case AskFailed =>
          notice := Alert(FetchErrorAlert);
      }
      loading := false;
    }
  }

  /**
   * The end-to-end run of a session: three URLs are indexed into seven
   * documents, then one question is answered with two sources.
   */
  method EndToEndSession() returns (sentUrls: seq<string>, log: seq<string>, answer: string, sources: seq<string>)
    ensures sentUrls == ["u1", "u2", "u3"]
    ensures |log| == 4 && log[3] == "✅ Done! Documents count: 7"
    ensures answer == "X happened" && sources == ["a", "b"]
  {
    var s := new Session();
    s.SetUrl(0, "u1");
    s.SetUrl(1, "u2");
    s.SetUrl(2, "u3");
    assert s.urls == ["u1", "u2", "u3"];
    sentUrls := s.ProcessUrls(Ingested(7));
    log := s.progress;
    assert NatToDecimal(7) == "7";
    s.SetQuestion("What happened?");
    var request, notice := s.AskQuestion(Answered("X happened", Some("a\nb")));
    assert request == Some("What happened?");
    answer := s.answer;
    SplitJoinLines(["a", "b"]);
    assert JoinLines(["a", "b"]) == "a\nb" by { assert ["a", "b"][1..] == ["b"]; }
    sources := s.sources;
  }
}
