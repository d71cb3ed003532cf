/**
 * The progress log of one "process URLs" run: the milestone messages the
 * client shows, and the exact log that each outcome of the ingestion request
 * leaves behind.
 */
module Progress {
  import opened Wrappers
  import opened Decimal

  const DataLoadingStarted: string := "Data Loading...Started.."
  const TextSplitterStarted: string := "Text Splitter...Started...✅✅✅"
  const EmbeddingStarted: string := "Embedding Vector Started Building...✅✅✅"
  const DonePrefix: string := "✅ Done! Documents count: "
  const IngestError: string := "❌ Error processing URLs. Check backend logs."

  /** What the ingestion endpoint answered: the number of indexed chunks, or any failure. */
  datatype IngestOutcome = Ingested(documentsCount: nat) | IngestFailed

  /** The completion milestone, carrying the document count as a decimal numeral. */
  function DoneEntry(count: nat): string
  {
    DonePrefix + NatToDecimal(count)
  }

  predicate IsDoneEntry(e: string)
  {
    |DonePrefix| <= |e| && e[..|DonePrefix|] == DonePrefix
  }

  /** The log a run leaves: a fresh "started" entry, then the success or the failure milestones. */
  function IngestLog(outcome: IngestOutcome): seq<string>
  {
    match outcome
    case Ingested(count) =>
      [DataLoadingStarted, TextSplitterStarted, EmbeddingStarted, DoneEntry(count)]
    case IngestFailed =>
      [DataLoadingStarted, IngestError]
  }

  /** The document count a reader of the log finds in its last entry, if that is the completion milestone. */
  function ReportedCount(log: seq<string>): Option<nat>
  {
    if log != [] && IsDoneEntry(log[|log| - 1]) then
      Some(DecimalValue(log[|log| - 1][|DonePrefix|..]))
    else None
  }

  /** The completion milestone is recognised as such, and the count it carries reads back unchanged. */
  lemma DoneEntryReportsCount(count: nat)
    ensures IsDoneEntry(DoneEntry(count))
    ensures DecimalValue(DoneEntry(count)[|DonePrefix|..]) == count
  {
    var e := DoneEntry(count);
    assert e[..|DonePrefix|] == DonePrefix;
    assert e[|DonePrefix|..] == NatToDecimal(count);
    DecimalRoundTrip(count);
  }

  /** A log ends with the count exactly when the ingestion succeeded, and it is the count the service returned. */
  lemma IngestLogReportsCount(outcome: IngestOutcome)
    ensures ReportedCount(IngestLog(outcome)) ==
      match outcome
      case Ingested(count) => Some(count)
      case IngestFailed => None
  {
    match outcome
    case Ingested(count) =>
      DoneEntryReportsCount(count);
    case IngestFailed =>
      assert IngestError[0] != DonePrefix[0];
      assert !IsDoneEntry(IngestError);
  }

  /**
   * Which milestones a run records: the splitter, embedding and completion
   * milestones appear exactly on success, the error milestone exactly on
   * failure, and every run starts with the "started" milestone.
   */
  lemma IngestLogMilestones(outcome: IngestOutcome)
    ensures IngestLog(outcome)[0] == DataLoadingStarted
    ensures TextSplitterStarted in IngestLog(outcome) <==> outcome.Ingested?
    ensures EmbeddingStarted in IngestLog(outcome) <==> outcome.Ingested?
    ensures (exists i :: 0 <= i < |IngestLog(outcome)| && IsDoneEntry(IngestLog(outcome)[i])) <==> outcome.Ingested?
    ensures IngestError in IngestLog(outcome) <==> outcome.IngestFailed?
  {
    assert DataLoadingStarted[0] != IngestError[0];
    assert !IsDoneEntry(DataLoadingStarted) by { assert DataLoadingStarted[0] != DonePrefix[0]; }
    assert !IsDoneEntry(IngestError) by { assert IngestError[0] != DonePrefix[0]; }
    assert TextSplitterStarted[0] != IngestError[0] && EmbeddingStarted[0] != IngestError[0];
    match outcome
    case Ingested(count) =>
      var log := IngestLog(outcome);
      DoneEntryReportsCount(count);
      assert IsDoneEntry(log[3]);
      assert DoneEntry(count)[0] == DonePrefix[0];
      assert DoneEntry(count)[0] != IngestError[0];
    case IngestFailed =>
      var log := IngestLog(outcome);
      assert DataLoadingStarted[0] != TextSplitterStarted[0];
      assert DataLoadingStarted[0] != EmbeddingStarted[0];
      assert forall i :: 0 <= i < |log| ==> !IsDoneEntry(log[i]);
  }
}
