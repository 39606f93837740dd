/** The lines of a reserve, fulfill or receive request. */
module RequestLines {
  import opened Ledger
  import opened LedgerSteps

  ghost predicate NoRepeats(lines: seq<Line>) {
    forall m, n :: 0 <= m < n < |lines| ==> lines[m].item != lines[n].item
  }

  ghost predicate EachPositive(lines: seq<Line>) {
    forall n :: 0 <= n < |lines| ==> lines[n].quantity > 0
  }

  ghost predicate Names(lines: seq<Line>, i: Id) {
    exists n :: 0 <= n < |lines| && lines[n].item == i
  }

  /** Repeated items are reported before quantities that are not positive. */
  lemma RequestChecks(lines: seq<Line>)
    ensures CheckRequest(lines)
         == if !NoRepeats(lines) then Some(DuplicateLine) else if !EachPositive(lines) then Some(NotPositive) else None
  {
  }

  /** The document lines a request adds, one for each of its lines, in their order. */
  ghost function NewLines(doc: Id, lines: seq<Line>): seq<DocumentLine> {
    seq(|lines|, n requires 0 <= n < |lines| => DocumentLine(doc, lines[n].item, lines[n].quantity))
  }

  lemma NewLinesSplit(doc: Id, lines: seq<Line>)
    requires lines != []
    ensures NewLines(doc, lines) == [DocumentLine(doc, lines[0].item, lines[0].quantity)] + NewLines(doc, lines[1..])
  {
  }
}
