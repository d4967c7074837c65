/**
 * `parseSummaryText` and the acceptance rule of `generateSummary`
 * (utils/generateSummary.ts): a single pass over the non-blank lines of a
 * model's completion that fills in a title, an overview, an ordered list of
 * slides, a key takeaway and a reading time.
 *
 * `ParseSummaryText` is the loop as the source writes it; `Step`, `RunFrom`
 * and `Parse` are its specification, one line at a time, and the lemmas
 * below state what that specification guarantees.
 */
module GenerateSummary {
  import opened Wrappers
  import opened Text
  import opened SummaryPatterns

  datatype SlideData = SlideData(heading: string, content: string)

  datatype ParsedSummary = ParsedSummary(
    title: Option<string>,
    overview: Option<string>,
    slides: seq<SlideData>,
    keyTakeaway: Option<string>,
    minuteRead: Option<nat>)

  /** The parser's variables between two lines: the fields so far, the emitted slides and the open slide. */
  datatype ParserState = ParserState(
    title: Option<string>,
    overview: Option<string>,
    keyTakeaway: Option<string>,
    minuteRead: Option<nat>,
    slides: seq<SlideData>,
    heading: string,
    content: seq<string>)

  const Start: ParserState := ParserState(None, None, None, None, [], "", [])

  const DefaultTitle: string := "Untitled Summary"

  /** `lines.filter((line) => line.trim())`: the lines that are not blank, in order. */
  function KeepNonBlank(lines: seq<string>): (r: seq<string>)
    ensures forall k :: 0 <= k < |r| ==> Trim(r[k]) != []
    ensures |r| <= |lines|
  {
    if lines == [] then []
    else
      var rest := KeepNonBlank(lines[..|lines| - 1]);
      var last := lines[|lines| - 1];
      if Trim(last) != [] then rest + [last] else rest
  }

  /** The filter keeps exactly the lines that are not blank. */
  lemma {:induction false} KeepNonBlankMembers(lines: seq<string>)
    ensures forall x :: x in KeepNonBlank(lines) <==> x in lines && Trim(x) != []
  {
    if lines != [] {
      var init, last := lines[..|lines| - 1], lines[|lines| - 1];
      KeepNonBlankMembers(init);
      assert lines == init + [last];
    }
  }

  /** A single line survives exactly when it is not blank. */
  lemma KeepNonBlankOne(line: string)
    ensures KeepNonBlank([line]) == if Trim(line) != [] then [line] else []
  {
    assert [line][..0] == [];
  }

  /**
   * The filter works line by line: filtering `a + b` is filtering `a`, then `b`. With
   * `KeepNonBlankOne` this fixes the result as every non-blank line, in order, repeats kept.
   */
  lemma {:induction false} KeepNonBlankConcat(a: seq<string>, b: seq<string>)
    ensures KeepNonBlank(a + b) == KeepNonBlank(a) + KeepNonBlank(b)
  {
    if b == [] {
      assert a + b == a;
    } else {
      var init := b[..|b| - 1];
      var last := b[|b| - 1];
      assert (a + b)[..|a + b| - 1] == a + init;
      assert (a + b)[|a + b| - 1] == last;
      KeepNonBlankConcat(a, init);
      AppendAssoc(KeepNonBlank(a), KeepNonBlank(init), [last]);
    }
  }

  /** The lines the parser visits: `summaryText.split("\n")` without the blank ones. */
  function NonBlankLines(text: string): seq<string>
  {
    KeepNonBlank(Split(text))
  }

  /** The guard `currentSlideHeading && currentSlideContent.length > 0`. */
  predicate SlideOpen(st: ParserState)
  {
    st.heading != [] && |st.content| > 0
  }

  /** The slide list after saving the open slide, when it has a heading and some content. */
  function Flushed(st: ParserState): (r: seq<SlideData>)
    ensures st.slides <= r
    ensures |r| == |st.slides| + (if SlideOpen(st) then 1 else 0)
  {
    if SlideOpen(st) then st.slides + [SlideData(st.heading, Join(st.content, "\n"))] else st.slides
  }

  /** One iteration of the loop, on an already trimmed line: slides already emitted stay as they are, and at most one is added. */
  function Step(st: ParserState, line: string): (r: ParserState)
    ensures st.slides <= r.slides && |r.slides| <= |st.slides| + 1
  {
    if StartsWith(line, "Title:") then
      match Exec(TitlePattern, line)
      case Some(t) => st.(title := Some(t))
      case None => st
    else if StartsWith(line, "Minute Read:") then
      match Exec(MinuteDigits, line)
      case Some(d) => st.(minuteRead := Some(DecimalValue(d)))
      case None => st
    else if StartsWith(line, "Overview:") then
      match Exec(OverviewPattern, line)
      case Some(o) => st.(overview := Some(o))
      case None => st
    else if StartsWith(line, "Slide") then
      var saved := if SlideOpen(st) then st.(slides := Flushed(st), content := []) else st;
      match Exec(SlideHeading, line)
      case Some(h) => saved.(heading := h)
      case None => saved
    else if StartsWith(line, "Key Takeaway:") then
      var saved := if SlideOpen(st) then st.(slides := Flushed(st), content := [], heading := []) else st;
      match Exec(TakeawayPattern, line)
      case Some(k) => saved.(keyTakeaway := Some(k))
      case None => saved
    else if st.heading != [] then
      if StartsWith(line, "*") || StartsWith(line, "-") || |line| > 0 then st.(content := st.content + [line])
      else st
    else st
  }

  /**
   * The loop over `lines` from state `st`, each line trimmed before it is classified:
   * emitted slides are never changed or removed.
   */
  function RunFrom(st: ParserState, lines: seq<string>): (r: ParserState)
    ensures st.slides <= r.slides
  {
    if lines == [] then st
    else
      var before := RunFrom(st, lines[..|lines| - 1]);
      var r := Step(before, Trim(lines[|lines| - 1]));
      assert st.slides <= r.slides by {
        assert r.slides[..|st.slides|] == before.slides[..|before.slides|][..|st.slides|];
      }
      r
  }

  /** The loop emits at most one slide per line. */
  lemma {:induction false} RunFromEmitsAtMostOnePerLine(st: ParserState, lines: seq<string>)
    ensures |RunFrom(st, lines).slides| <= |st.slides| + |lines|
  {
    if lines != [] {
      RunFromEmitsAtMostOnePerLine(st, lines[..|lines| - 1]);
    }
  }

  /** The record built from the state after the loop, with the last open slide saved. */
  function Finish(st: ParserState): ParsedSummary
  {
    ParsedSummary(st.title, st.overview, Flushed(st), st.keyTakeaway, st.minuteRead)
  }

  function ParseLines(lines: seq<string>): ParsedSummary
  {
    Finish(RunFrom(Start, lines))
  }

  /**
   * The value `parseSummaryText(text)` returns. Every slide in it has a non-empty heading and
   * non-empty content, so a heading without content lines is never emitted; and a parsed
   * title is never empty, so "Untitled Summary" replaces only a missing title.
   */
  function Parse(text: string): (r: ParsedSummary)
    ensures forall k :: 0 <= k < |r.slides| ==> r.slides[k].heading != [] && r.slides[k].content != []
    ensures r.title.Some? ==> r.title.value != []
  {
    RunKeepsWellFormed(NonBlankLines(text));
    FlushedWellFormed(RunFrom(Start, NonBlankLines(text)));
    ParseLines(NonBlankLines(text))
  }

  /** `parseSummaryText`, written as the source's loop over mutable variables. */
  method ParseSummaryText(summaryText: string) returns (r: ParsedSummary)
    ensures r == Parse(summaryText)
  {
    var lines := NonBlankLines(summaryText);
    var slides: seq<SlideData> := [];
    var title: Option<string> := None;
    var overview: Option<string> := None;
    var keyTakeaway: Option<string> := None;
    var minuteRead: Option<nat> := None;
    var currentSlideHeading: string := "";
    var currentSlideContent: seq<string> := [];

    for i := 0 to |lines|
      invariant ParserState(title, overview, keyTakeaway, minuteRead, slides, currentSlideHeading, currentSlideContent) == RunFrom(Start, lines[..i])
    {
      var line := Trim(lines[i]);
      var next := ReadLine(ParserState(title, overview, keyTakeaway, minuteRead, slides, currentSlideHeading, currentSlideContent), line);
      title, overview, keyTakeaway, minuteRead := next.title, next.overview, next.keyTakeaway, next.minuteRead;
      slides, currentSlideHeading, currentSlideContent := next.slides, next.heading, next.content;
      RunFromNext(Start, lines, i);
    }
    assert lines[..|lines|] == lines;

    // save the last slide if it is still open
    if currentSlideHeading != [] && |currentSlideContent| > 0 {
      slides := slides + [SlideData(currentSlideHeading, Join(currentSlideContent, "\n"))];
    }
    r := ParsedSummary(title, overview, slides, keyTakeaway, minuteRead);
  }

  /** The body of the loop of `parseSummaryText`: the variables after reading one trimmed line. */
  method ReadLine(st: ParserState, line: string) returns (r: ParserState)
    ensures r == Step(st, line)
  {
    var title, overview, keyTakeaway, minuteRead := st.title, st.overview, st.keyTakeaway, st.minuteRead;
    var slides, currentSlideHeading, currentSlideContent := st.slides, st.heading, st.content;

    if StartsWith(line, "Title:") {
      var titleMatch := Exec(TitlePattern, line);
      if titleMatch.Some? {
        title := Some(titleMatch.value);
      }
      TitleStep(st, line);
    } else if StartsWith(line, "Minute Read:") {
      var minuteReadMatch := Exec(MinuteDigits, line);
      if minuteReadMatch.Some? {
        minuteRead := Some(DecimalValue(minuteReadMatch.value));
      }
      MinuteReadStep(st, line);
    } else if StartsWith(line, "Overview:") {
      var overviewMatch := Exec(OverviewPattern, line);
      if overviewMatch.Some? {
        overview := Some(overviewMatch.value);
      }
      OverviewStep(st, line);
    } else if StartsWith(line, "Slide") {
      // save the open slide before a new heading
      if currentSlideHeading != [] && |currentSlideContent| > 0 {
        slides := slides + [SlideData(currentSlideHeading, Join(currentSlideContent, "\n"))];
        currentSlideContent := [];
      }
      var slideMatch := Exec(SlideHeading, line);
      if slideMatch.Some? {
        currentSlideHeading := slideMatch.value;
      }
      SlideStep(st, line);
    } else if StartsWith(line, "Key Takeaway:") {
      // save the last slide before the key takeaway
      if currentSlideHeading != [] && |currentSlideContent| > 0 {
        slides := slides + [SlideData(currentSlideHeading, Join(currentSlideContent, "\n"))];
        currentSlideContent := [];
        currentSlideHeading := "";
      }
      var takeawayMatch := Exec(TakeawayPattern, line);
      if takeawayMatch.Some? {
        keyTakeaway := Some(takeawayMatch.value);
      }
      TakeawayStep(st, line);
    } else {
      if currentSlideHeading != [] {
        if StartsWith(line, "*") || StartsWith(line, "-") || |line| > 0 {
          currentSlideContent := currentSlideContent + [line];
        }
      }
      ContentStep(st, line);
    }
    r := ParserState(title, overview, keyTakeaway, minuteRead, slides, currentSlideHeading, currentSlideContent);
  }

  // ----- generateSummary: what is stored, or why nothing is -----

  datatype SummaryError =
    | NotAuthenticated     // "User not authenticated"
    | GenerationFailed     // "Failed to generate summary content"
    | NoSummaryGenerated   // "No summary generated from the provided text"
    | SaveFailed           // "Failed to save summary to database"

  /** The row `prisma.summary.create` is given. */
  datatype SummaryRecord = SummaryRecord(
    userId: string,
    title: string,
    overview: Option<string>,
    keyTakeaway: Option<string>,
    minRead: Option<nat>,
    slides: seq<SlideData>)

  datatype SummaryOutcome = Stored(record: SummaryRecord) | Rejected(error: SummaryError)

  /**
   * `generateSummary`: `userId` is what authentication returned, `completion` the
   * model's text (None when the provider call threw), `saved` whether the database
   * write succeeded. The checks run in order, and the first that fails names the
   * error. A summary is stored only when the parse has a slide, and its title is the
   * parsed title or "Untitled Summary".
   */
  function GenerateSummaryOutcome(userId: Option<string>, completion: Option<string>, saved: bool): (r: SummaryOutcome)
    ensures r.Stored? <==>
              userId.Some? && userId.value != [] && completion.Some? && completion.value != []
              && |Parse(completion.value).slides| > 0 && saved
    ensures r == Rejected(NotAuthenticated) <==> userId.None? || userId.value == []
    ensures r == Rejected(GenerationFailed) <==>
              userId.Some? && userId.value != [] && (completion.None? || completion.value == [])
    ensures r == Rejected(NoSummaryGenerated) <==>
              userId.Some? && userId.value != [] && completion.Some? && completion.value != []
              && |Parse(completion.value).slides| == 0
    ensures r == Rejected(SaveFailed) <==>
              userId.Some? && userId.value != [] && completion.Some? && completion.value != []
              && |Parse(completion.value).slides| > 0 && !saved
    ensures r.Stored? ==>
              var p := Parse(completion.value);
              && r.record.userId == userId.value
              && r.record.slides == p.slides
              && r.record.title == p.title.GetOr(DefaultTitle)
              && r.record.title != []
              && r.record.overview == p.overview
              && r.record.keyTakeaway == p.keyTakeaway
              && r.record.minRead == p.minuteRead
  {
    if userId.None? || userId.value == [] then Rejected(NotAuthenticated)
    else if completion.None? || completion.value == [] then Rejected(GenerationFailed)
    else
      var summaryData := Parse(completion.value);
      if |summaryData.slides| == 0 then Rejected(NoSummaryGenerated)
      else if !saved then Rejected(SaveFailed)
      else
        var title := if summaryData.title.None? || summaryData.title.value == [] then DefaultTitle
                     else summaryData.title.value;
        Stored(SummaryRecord(userId.value, title, summaryData.overview, summaryData.keyTakeaway,
                             summaryData.minuteRead, summaryData.slides))
  }

  // ----- Properties of the parser -----

  /** The reading of a state the loop reaches: emitted slides have a heading and content, held lines are not empty. */
  ghost predicate WellFormed(st: ParserState)
  {
    && (forall k :: 0 <= k < |st.slides| ==> st.slides[k].heading != [] && st.slides[k].content != [])
    && (forall k :: 0 <= k < |st.content| ==> st.content[k] != [])
    && (st.title.Some? ==> st.title.value != [])
  }

  lemma StepKeepsWellFormed(st: ParserState, line: string)
    requires WellFormed(st)
    requires line != []
    ensures WellFormed(Step(st, line))
  {
    PrefixesExclusive(line);
    if StartsWith(line, "Title:") {
      TitleStep(st, line);
    } else if StartsWith(line, "Minute Read:") {
      MinuteReadStep(st, line);
    } else if StartsWith(line, "Overview:") {
      OverviewStep(st, line);
    } else if StartsWith(line, "Slide") {
      FlushedWellFormed(st);
      SlideStep(st, line);
    } else if StartsWith(line, "Key Takeaway:") {
      FlushedWellFormed(st);
      TakeawayStep(st, line);
    } else {
      ContentStep(st, line);
    }
  }

  /** Saving the open slide keeps every emitted slide non-empty. */
  lemma FlushedWellFormed(st: ParserState)
    requires WellFormed(st)
    ensures forall k :: 0 <= k < |Flushed(st)| ==> Flushed(st)[k].heading != [] && Flushed(st)[k].content != []
  {
    if SlideOpen(st) {
      JoinNonEmpty(st.content, "\n");
    }
  }

  lemma {:induction false} RunKeepsWellFormed(lines: seq<string>)
    requires forall k :: 0 <= k < |lines| ==> Trim(lines[k]) != []
    ensures WellFormed(RunFrom(Start, lines))
  {
    if lines != [] {
      RunKeepsWellFormed(lines[..|lines| - 1]);
      StepKeepsWellFormed(RunFrom(Start, lines[..|lines| - 1]), Trim(lines[|lines| - 1]));
    }
  }

  // The five prefixes start with different letters, so a line takes at most one branch of the chain.

  /** A line that none of the five prefixes starts: it is slide content, or ignored before the first heading. */
  predicate Plain(line: string)
  {
    && !StartsWith(line, "Title:")
    && !StartsWith(line, "Minute Read:")
    && !StartsWith(line, "Overview:")
    && !StartsWith(line, "Slide")
    && !StartsWith(line, "Key Takeaway:")
  }

  lemma PrefixesExclusive(line: string)
    ensures StartsWith(line, "Minute Read:") ==> !StartsWith(line, "Title:")
    ensures StartsWith(line, "Overview:") ==> !StartsWith(line, "Title:") && !StartsWith(line, "Minute Read:")
    ensures StartsWith(line, "Slide") ==>
              !StartsWith(line, "Title:") && !StartsWith(line, "Minute Read:") && !StartsWith(line, "Overview:")
    ensures StartsWith(line, "Key Takeaway:") ==>
              !StartsWith(line, "Title:") && !StartsWith(line, "Minute Read:")
              && !StartsWith(line, "Overview:") && !StartsWith(line, "Slide")
  {
    if |line| > 0 {
      assert StartsWith(line, "Title:") ==> line[0] == 'T';
      assert StartsWith(line, "Minute Read:") ==> line[0] == 'M';
      assert StartsWith(line, "Overview:") ==> line[0] == 'O';
      assert StartsWith(line, "Slide") ==> line[0] == 'S';
      assert StartsWith(line, "Key Takeaway:") ==> line[0] == 'K';
    }
  }

  /**
   * The capture of the last line (trimmed) that starts with `lead` and on which `pat`
   * matches: the value a field holds when later matching lines override earlier ones.
   */
  function LastCapture(pat: Pattern, lead: string, lines: seq<string>): (r: Option<string>)
    ensures r.Some? ==> r.value != [] && (pat.MinuteDigits? ==> AllDigits(r.value))
  {
    if lines == [] then None
    else
      var line := Trim(lines[|lines| - 1]);
      if StartsWith(line, lead) && Exec(pat, line).Some? then Exec(pat, line)
      else LastCapture(pat, lead, lines[..|lines| - 1])
  }

  /**
   * Title, overview, key takeaway and minute read are each the capture of the last line
   * of their kind that has one (the minute read parsed base 10), and None when there is none.
   */
  lemma {:induction false} FieldsAreLastCaptures(st: ParserState, lines: seq<string>)
    requires st.title.None? && st.overview.None? && st.keyTakeaway.None? && st.minuteRead.None?
    ensures RunFrom(st, lines).title == LastCapture(TitlePattern, "Title:", lines)
    ensures RunFrom(st, lines).overview == LastCapture(OverviewPattern, "Overview:", lines)
    ensures RunFrom(st, lines).keyTakeaway == LastCapture(TakeawayPattern, "Key Takeaway:", lines)
    ensures RunFrom(st, lines).minuteRead
         == match LastCapture(MinuteDigits, "Minute Read:", lines)
            case None => None
            case Some(d) => Some(DecimalValue(d))
  {
    if lines != [] {
      var init := lines[..|lines| - 1];
      FieldsAreLastCaptures(st, init);
      RunFromLast(st, lines);
      StepFields(RunFrom(st, init), Trim(lines[|lines| - 1]));
    }
  }

  /**
   * How one line changes the four single-valued fields: only a matching line of the
   * field's own kind does; and those lines leave the slides alone.
   */
  lemma StepFields(st: ParserState, line: string)
    ensures StartsWith(line, "Title:") || StartsWith(line, "Minute Read:") || StartsWith(line, "Overview:") ==>
              && Step(st, line).slides == st.slides
              && Step(st, line).heading == st.heading
              && Step(st, line).content == st.content
    ensures Step(st, line).title
         == if StartsWith(line, "Title:") && Exec(TitlePattern, line).Some? then Exec(TitlePattern, line) else st.title
    ensures Step(st, line).overview
         == if StartsWith(line, "Overview:") && Exec(OverviewPattern, line).Some? then Exec(OverviewPattern, line)
            else st.overview
    ensures Step(st, line).keyTakeaway
         == if StartsWith(line, "Key Takeaway:") && Exec(TakeawayPattern, line).Some? then Exec(TakeawayPattern, line)
            else st.keyTakeaway
    ensures Step(st, line).minuteRead
         == if StartsWith(line, "Minute Read:") && Exec(MinuteDigits, line).Some?
            then Some(DecimalValue(Exec(MinuteDigits, line).value)) else st.minuteRead
  {
    PrefixesExclusive(line);
  }

  /** The fields of `parseSummaryText(text)` as last captures over its non-blank lines. */
  lemma ParsedFields(text: string)
    ensures var lines := NonBlankLines(text);
            && Parse(text).title == LastCapture(TitlePattern, "Title:", lines)
            && Parse(text).overview == LastCapture(OverviewPattern, "Overview:", lines)
            && Parse(text).keyTakeaway == LastCapture(TakeawayPattern, "Key Takeaway:", lines)
            && Parse(text).minuteRead
               == match LastCapture(MinuteDigits, "Minute Read:", lines)
                  case None => None
                  case Some(d) => Some(DecimalValue(d))
  {
    FieldsAreLastCaptures(Start, NonBlankLines(text));
  }

  /** The last line is the last step. */
  lemma RunFromLast(st: ParserState, lines: seq<string>)
    requires lines != []
    ensures RunFrom(st, lines) == Step(RunFrom(st, lines[..|lines| - 1]), Trim(lines[|lines| - 1]))
  {
  }

  // Step, one branch of the chain at a time.

  lemma TitleStep(st: ParserState, line: string)
    requires StartsWith(line, "Title:")
    ensures Step(st, line) == match Exec(TitlePattern, line) case Some(t) => st.(title := Some(t)) case None => st
  {
  }

  lemma MinuteReadStep(st: ParserState, line: string)
    requires !StartsWith(line, "Title:") && StartsWith(line, "Minute Read:")
    ensures Step(st, line)
         == match Exec(MinuteDigits, line) case Some(d) => st.(minuteRead := Some(DecimalValue(d))) case None => st
  {
  }

  lemma OverviewStep(st: ParserState, line: string)
    requires !StartsWith(line, "Title:") && !StartsWith(line, "Minute Read:") && StartsWith(line, "Overview:")
    ensures Step(st, line) == match Exec(OverviewPattern, line) case Some(o) => st.(overview := Some(o)) case None => st
  {
  }

  lemma SlideStep(st: ParserState, line: string)
    requires !StartsWith(line, "Title:") && !StartsWith(line, "Minute Read:") && !StartsWith(line, "Overview:")
    requires StartsWith(line, "Slide")
    ensures var saved := if SlideOpen(st) then st.(slides := Flushed(st), content := []) else st;
            Step(st, line) == match Exec(SlideHeading, line) case Some(h) => saved.(heading := h) case None => saved
  {
  }

  lemma TakeawayStep(st: ParserState, line: string)
    requires !StartsWith(line, "Title:") && !StartsWith(line, "Minute Read:") && !StartsWith(line, "Overview:")
    requires !StartsWith(line, "Slide") && StartsWith(line, "Key Takeaway:")
    ensures var saved := if SlideOpen(st) then st.(slides := Flushed(st), content := [], heading := []) else st;
            Step(st, line) == match Exec(TakeawayPattern, line) case Some(k) => saved.(keyTakeaway := Some(k)) case None => saved
  {
  }

  lemma ContentStep(st: ParserState, line: string)
    requires Plain(line)
    ensures Step(st, line)
         == if st.heading != [] && (StartsWith(line, "*") || StartsWith(line, "-") || |line| > 0)
            then st.(content := st.content + [line]) else st
  {
  }

  /** One more line of `lines` is one more step. */
  lemma RunFromNext(st: ParserState, lines: seq<string>, i: nat)
    requires i < |lines|
    ensures RunFrom(st, lines[..i + 1]) == Step(RunFrom(st, lines[..i]), Trim(lines[i]))
  {
    assert lines[..i + 1][..i] == lines[..i];
  }

  /** Running over `a + b` is running over `a`, then over `b`. */
  lemma {:induction false} RunFromConcat(st: ParserState, a: seq<string>, b: seq<string>)
    ensures RunFrom(st, a + b) == RunFrom(RunFrom(st, a), b)
  {
    if b == [] {
      assert a + b == a;
    } else {
      var init := b[..|b| - 1];
      var ab := a + b;
      assert ab[..|ab| - 1] == a + init;
      assert ab[|ab| - 1] == b[|b| - 1];
      RunFromLast(st, ab);
      RunFromLast(RunFrom(st, a), b);
      RunFromConcat(st, a, init);
    }
  }

  /**
   * A "Slide…" line saves the open slide when it has content, and sets the heading
   * to its capture; without a `Slide <digits>:` match the previous heading stays.
   */
  lemma SlideLineStep(st: ParserState, line: string)
    requires StartsWith(line, "Slide")
    ensures Step(st, line).slides == Flushed(st)
    ensures Step(st, line).content == if SlideOpen(st) then [] else st.content
    ensures Exec(SlideHeading, line).None? ==> Step(st, line).heading == st.heading
    ensures Exec(SlideHeading, line).Some? ==> Step(st, line).heading == Exec(SlideHeading, line).value
    ensures Step(st, line).title == st.title && Step(st, line).overview == st.overview
    ensures Step(st, line).keyTakeaway == st.keyTakeaway && Step(st, line).minuteRead == st.minuteRead
  {
    PrefixesExclusive(line);
  }

  /**
   * A "Key Takeaway:" line saves the open slide; it clears the heading only when that
   * slide had content, and otherwise later lines keep accumulating under the old heading.
   */
  lemma KeyTakeawayLineStep(st: ParserState, line: string)
    requires StartsWith(line, "Key Takeaway:")
    ensures Step(st, line).slides == Flushed(st)
    ensures Step(st, line).heading == if SlideOpen(st) then [] else st.heading
    ensures Step(st, line).content == if SlideOpen(st) then [] else st.content
    ensures Step(st, line).keyTakeaway == if Exec(TakeawayPattern, line).Some? then Exec(TakeawayPattern, line) else st.keyTakeaway
    ensures Step(st, line).title == st.title && Step(st, line).overview == st.overview
    ensures Step(st, line).minuteRead == st.minuteRead
  {
    PrefixesExclusive(line);
  }

  /** A line's trimmed form. */
  function TrimAll(lines: seq<string>): (r: seq<string>)
    ensures |r| == |lines|
    ensures forall k :: 0 <= k < |lines| ==> r[k] == Trim(lines[k])
  {
    if lines == [] then [] else TrimAll(lines[..|lines| - 1]) + [Trim(lines[|lines| - 1])]
  }

  /**
   * Under an open heading, plain lines are appended to the slide content, trimmed and in
   * order, and nothing else changes.
   */
  lemma {:induction false} PlainLinesAccumulate(st: ParserState, lines: seq<string>)
    requires st.heading != []
    requires forall k :: 0 <= k < |lines| ==> Plain(Trim(lines[k])) && Trim(lines[k]) != []
    ensures RunFrom(st, lines) == st.(content := st.content + TrimAll(lines))
  {
    if lines != [] {
      var n := |lines|;
      var init := lines[..n - 1];
      PlainLinesAccumulate(st, init);
      RunFromLast(st, lines);
      var mid := st.(content := st.content + TrimAll(init));
      ContentStep(mid, Trim(lines[n - 1]));
      assert TrimAll(lines) == TrimAll(init) + [Trim(lines[n - 1])];
      AppendAssoc(st.content, TrimAll(init), [Trim(lines[n - 1])]);
    }
  }

  /** Before any heading, plain lines change nothing. */
  lemma {:induction false} PlainLinesIgnoredWithoutHeading(st: ParserState, lines: seq<string>)
    requires st.heading == []
    requires forall k :: 0 <= k < |lines| ==> Plain(Trim(lines[k]))
    ensures RunFrom(st, lines) == st
  {
    if lines != [] {
      PlainLinesIgnoredWithoutHeading(st, lines[..|lines| - 1]);
      RunFromLast(st, lines);
      ContentStep(st, Trim(lines[|lines| - 1]));
    }
  }

  /** Non-header lines before the first header are ignored. */
  lemma PlainPrefixIgnored(pre: seq<string>, rest: seq<string>)
    requires forall k :: 0 <= k < |pre| ==> Plain(Trim(pre[k]))
    ensures ParseLines(pre + rest) == ParseLines(rest)
  {
    RunFromConcat(Start, pre, rest);
    PlainLinesIgnoredWithoutHeading(Start, pre);
  }

  lemma AppendAssoc<T>(a: seq<T>, b: seq<T>, c: seq<T>)
    ensures a + (b + c) == a + b + c
  {
  }

  lemma AppendTwo<T>(s: seq<T>, a: T, b: T)
    ensures s + [a] + [b] == s + [a, b]
  {
  }

  /**
   * After an open slide with heading `h`, a "Slide…" line without a `Slide <digits>:`
   * match saves that slide and the plain lines after it start another slide under the
   * same heading.
   */
  lemma UnmatchedSlideLineContinuesHeading(st: ParserState, line: string, more: seq<string>)
    requires SlideOpen(st)
    requires StartsWith(Trim(line), "Slide") && Exec(SlideHeading, Trim(line)).None?
    requires |more| > 0
    requires forall k :: 0 <= k < |more| ==> Plain(Trim(more[k])) && Trim(more[k]) != []
    ensures Finish(RunFrom(st, [line] + more)).slides
         == st.slides + [SlideData(st.heading, Join(st.content, "\n")), SlideData(st.heading, Join(TrimAll(more), "\n"))]
  {
    RunFromConcat(st, [line], more);
    RunFromLast(st, [line]);
    assert [line][..0] == [];
    SlideLineStep(st, Trim(line));
    var mid := RunFrom(st, [line]);
    assert mid.slides == st.slides + [SlideData(st.heading, Join(st.content, "\n"))];
    assert mid.heading == st.heading && mid.content == [];
    PlainLinesAccumulate(mid, more);
    var last := RunFrom(mid, more);
    assert last.heading == st.heading && last.content == TrimAll(more);
    assert SlideOpen(last) && last.slides == mid.slides;
    assert Flushed(last) == mid.slides + [SlideData(st.heading, Join(TrimAll(more), "\n"))];
    assert RunFrom(st, [line] + more) == last;
    var a, b := SlideData(st.heading, Join(st.content, "\n")), SlideData(st.heading, Join(TrimAll(more), "\n"));
    AppendTwo(st.slides, a, b);
    assert Finish(last).slides == st.slides + [a, b];
  }
}
