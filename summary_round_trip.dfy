/**
 * The line format the parser recognises, and the proof that `parseSummaryText`
 * reads back every well-formed completion in that format:
 *
 *   Title: <title>
 *   Overview: <overview>
 *   Slide 1: <heading>
 *   <content line> ...
 *   Slide 2: <heading>
 *   ...
 *   Key Takeaway: <takeaway>
 *   Minute Read: <n>
 */
module SummaryRoundTrip {
  import opened Wrappers
  import opened Text
  import opened SummaryPatterns
  import opened GenerateSummary

  datatype OutlineSlide = OutlineSlide(heading: string, lines: seq<string>)

  datatype Outline = Outline(
    title: string,
    overview: string,
    slides: seq<OutlineSlide>,
    keyTakeaway: string,
    minuteRead: nat)

  /** A line that `trim` leaves as it is and that holds no newline. */
  predicate CleanLine(l: string)
  {
    l != [] && !IsWhite(l[0]) && !IsWhite(l[|l| - 1]) && '\n' !in l
  }

  /** A field value the `(.+)` capture reproduces: trimmed, non-empty, without line terminators. */
  predicate FieldText(t: string)
  {
    t != [] && !IsWhite(t[0]) && !IsWhite(t[|t| - 1])
    && forall k :: 0 <= k < |t| ==> !IsLineTerminator(t[k])
  }

  /** A content line: trimmed, non-empty, newline-free, and not mistaken for a header. */
  predicate ContentLine(l: string)
  {
    CleanLine(l) && Plain(l)
  }

  lemma CleanIsTrimmed(l: string)
    requires CleanLine(l)
    ensures Trim(l) == l
  {
    TrimOfTrimmed(l);
  }

  predicate WellFormedSlide(s: OutlineSlide)
  {
    FieldText(s.heading) && |s.lines| > 0 && forall k :: 0 <= k < |s.lines| ==> ContentLine(s.lines[k])
  }

  predicate WellFormedOutline(o: Outline)
  {
    && FieldText(o.title) && FieldText(o.overview) && FieldText(o.keyTakeaway)
    && forall k :: 0 <= k < |o.slides| ==> WellFormedSlide(o.slides[k])
  }

  function SlideHeader(number: nat, heading: string): string
  {
    "Slide " + DecimalString(number) + ": " + heading
  }

  /** The lines of the slides, numbered from 1. */
  function SlideLines(slides: seq<OutlineSlide>): seq<string>
  {
    if slides == [] then []
    else
      var n := |slides|;
      SlideLines(slides[..n - 1]) + [SlideHeader(n, slides[n - 1].heading)] + slides[n - 1].lines
  }

  function RenderLines(o: Outline): seq<string>
  {
    ["Title: " + o.title, "Overview: " + o.overview]
    + SlideLines(o.slides)
    + ["Key Takeaway: " + o.keyTakeaway, "Minute Read: " + DecimalString(o.minuteRead)]
  }

  /** The completion text for an outline. */
  function Render(o: Outline): string
  {
    Join(RenderLines(o), "\n")
  }

  /** The slides the parser should produce: each heading with its lines joined by newlines. */
  function Emitted(slides: seq<OutlineSlide>): (r: seq<SlideData>)
    ensures |r| == |slides|
    ensures forall k :: 0 <= k < |slides| ==>
              r[k] == SlideData(slides[k].heading, Join(slides[k].lines, "\n"))
  {
    if slides == [] then []
    else
      var n := |slides|;
      Emitted(slides[..n - 1]) + [SlideData(slides[n - 1].heading, Join(slides[n - 1].lines, "\n"))]
  }

  function Expected(o: Outline): ParsedSummary
  {
    ParsedSummary(Some(o.title), Some(o.overview), Emitted(o.slides), Some(o.keyTakeaway), Some(o.minuteRead))
  }

  // ----- Every rendered line is clean -----

  lemma FieldTextIsClean(prefix: string, t: string)
    requires prefix != [] && !IsWhite(prefix[0]) && '\n' !in prefix
    requires FieldText(t)
    ensures CleanLine(prefix + t)
  {
    var l := prefix + t;
    assert l[|l| - 1] == t[|t| - 1];
    assert '\n' !in t by {
      forall k | 0 <= k < |t| ensures t[k] != '\n' {
        assert !IsLineTerminator(t[k]);
      }
    }
  }

  lemma DigitsAreClean(d: string)
    requires d != [] && AllDigits(d)
    ensures CleanLine("Minute Read: " + d)
  {
    var l := "Minute Read: " + d;
    assert l[|l| - 1] == d[|d| - 1];
    assert '\n' !in d by {
      assert !IsDigit('\n');
    }
  }

  lemma HeaderIsClean(n: nat, heading: string)
    requires FieldText(heading)
    ensures CleanLine(SlideHeader(n, heading))
  {
    var d := DecimalString(n);
    var prefix := "Slide " + d + ": ";
    assert SlideHeader(n, heading) == prefix + heading;
    assert prefix[0] == 'S';
    assert '\n' !in d by {
      assert !IsDigit('\n');
    }
    FieldTextIsClean(prefix, heading);
  }

  lemma {:induction false} SlideLinesClean(slides: seq<OutlineSlide>)
    requires forall k :: 0 <= k < |slides| ==> WellFormedSlide(slides[k])
    ensures forall k :: 0 <= k < |SlideLines(slides)| ==> CleanLine(SlideLines(slides)[k])
  {
    if slides != [] {
      var n := |slides|;
      SlideLinesClean(slides[..n - 1]);
      HeaderIsClean(n, slides[n - 1].heading);
    }
  }

  lemma RenderLinesClean(o: Outline)
    requires WellFormedOutline(o)
    ensures forall k :: 0 <= k < |RenderLines(o)| ==> CleanLine(RenderLines(o)[k])
  {
    FieldTextIsClean("Title: ", o.title);
    FieldTextIsClean("Overview: ", o.overview);
    FieldTextIsClean("Key Takeaway: ", o.keyTakeaway);
    DigitsAreClean(DecimalString(o.minuteRead));
    SlideLinesClean(o.slides);
  }

  /** A list without blank lines passes the filter unchanged. */
  lemma {:induction false} KeepNonBlankOfNonBlank(lines: seq<string>)
    requires forall k :: 0 <= k < |lines| ==> Trim(lines[k]) != []
    ensures KeepNonBlank(lines) == lines
  {
    if lines != [] {
      var init := lines[..|lines| - 1];
      KeepNonBlankOfNonBlank(init);
      assert KeepNonBlank(lines) == init + [lines[|lines| - 1]];
      assert init + [lines[|lines| - 1]] == lines;
    }
  }

  /** The parser visits exactly the rendered lines. */
  lemma RenderedLinesVisited(o: Outline)
    requires WellFormedOutline(o)
    ensures NonBlankLines(Render(o)) == RenderLines(o)
    ensures forall k :: 0 <= k < |RenderLines(o)| ==> Trim(RenderLines(o)[k]) == RenderLines(o)[k]
  {
    var lines := RenderLines(o);
    RenderLinesClean(o);
    SplitJoin(lines);
    forall k | 0 <= k < |lines| ensures Trim(lines[k]) == lines[k] {
      CleanIsTrimmed(lines[k]);
    }
    KeepNonBlankOfNonBlank(lines);
  }

  // ----- What each rendered line captures -----

  lemma LabelledLineCapture(lead: string, t: string)
    requires lead != [] && lead[|lead| - 1] == ':' && !IsWhite(lead[0])
    requires forall k :: 0 <= k < |lead| ==> !IsLineTerminator(lead[k])
    requires FieldText(t)
    ensures Exec(LabelledText(lead), lead + " " + t) == Some(t)
  {
    var s := lead + " " + t;
    LabelledLineTrimmed(lead, t);
    LabelledLineClean(lead, t);
    assert s[..|lead|] == lead;
    assert s[|lead|..] == " " + t;
    LabelledTextOnCleanLine(lead, s);
    TrimStartAfterBlank(t);
  }

  lemma LabelledLineTrimmed(lead: string, t: string)
    requires lead != [] && !IsWhite(lead[0])
    requires t != [] && !IsWhite(t[|t| - 1])
    ensures Trim(lead + " " + t) == lead + " " + t
  {
    var s := lead + " " + t;
    assert s[0] == lead[0];
    assert s[|s| - 1] == t[|t| - 1];
    TrimOfTrimmed(s);
  }

  lemma LabelledLineClean(lead: string, t: string)
    requires forall k :: 0 <= k < |lead| ==> !IsLineTerminator(lead[k])
    requires forall k :: 0 <= k < |t| ==> !IsLineTerminator(t[k])
    ensures forall k :: 0 <= k < |lead + " " + t| ==> !IsLineTerminator((lead + " " + t)[k])
  {
    var s := lead + " " + t;
    forall k | 0 <= k < |s| ensures !IsLineTerminator(s[k]) {
      if k < |lead| {
        assert s[k] == lead[k];
      } else if k > |lead| {
        assert s[k] == t[k - |lead| - 1];
      }
    }
  }

  /** One blank before a trimmed text is what `TrimStart` removes. */
  lemma TrimStartAfterBlank(t: string)
    requires t == [] || !IsWhite(t[0])
    ensures TrimStart(" " + t) == t
  {
    assert (" " + t)[1..] == t;
  }

  lemma MinuteLineCapture(n: nat)
    ensures Exec(MinuteDigits, "Minute Read: " + DecimalString(n)) == Some(DecimalString(n))
    ensures DecimalValue(DecimalString(n)) == n
  {
    var d := DecimalString(n);
    var s := "Minute Read: " + d;
    assert s[12..] == " " + d;
    TrimStartAfterBlank(d);
    assert StartsWith(s, "Minute Read:") by {
      assert s[..12] == "Minute Read:";
    }
    MinuteDigitsAfterLabel(s);
    LeadingDigitsOfDigits(d);
    DecimalRoundTrip(n);
  }

  // ----- Running the parser over the rendered lines -----

  /** A slide header saves the open slide and opens one under its heading. */
  lemma HeaderLineStep(st: ParserState, n: nat, heading: string)
    requires FieldText(heading)
    requires (st.heading == [] && st.content == []) || SlideOpen(st)
    ensures Step(st, SlideHeader(n, heading)) == st.(slides := Flushed(st), heading := heading, content := [])
  {
    var l := SlideHeader(n, heading);
    SlideHeaderCapture(DecimalString(n), heading);
    assert l[..5] == "Slide";
    SlideLineStep(st, l);
  }

  lemma TrimAllOfClean(lines: seq<string>)
    requires forall k :: 0 <= k < |lines| ==> CleanLine(lines[k])
    ensures TrimAll(lines) == lines
  {
    forall k | 0 <= k < |lines| ensures TrimAll(lines)[k] == lines[k] {
      CleanIsTrimmed(lines[k]);
    }
  }

  lemma HeaderRun(st: ParserState, n: nat, heading: string)
    requires FieldText(heading)
    requires (st.heading == [] && st.content == []) || SlideOpen(st)
    ensures RunFrom(st, [SlideHeader(n, heading)]) == st.(slides := Flushed(st), heading := heading, content := [])
  {
    var header := SlideHeader(n, heading);
    HeaderIsClean(n, heading);
    CleanIsTrimmed(header);
    RunFromLast(st, [header]);
    assert [header][..0] == [];
    HeaderLineStep(st, n, heading);
  }

  /** Content lines under an open heading are gathered as they are. */
  lemma ContentRun(st: ParserState, lines: seq<string>)
    requires st.heading != []
    requires forall k :: 0 <= k < |lines| ==> ContentLine(lines[k])
    ensures RunFrom(st, lines) == st.(content := st.content + lines)
  {
    forall k | 0 <= k < |lines| ensures Plain(Trim(lines[k])) && Trim(lines[k]) != [] {
      CleanIsTrimmed(lines[k]);
    }
    PlainLinesAccumulate(st, lines);
    TrimAllOfClean(lines);
  }

  /** One slide block: the header, then its content lines gathered under the heading. */
  lemma BlockRun(st: ParserState, n: nat, slide: OutlineSlide)
    requires WellFormedSlide(slide)
    requires (st.heading == [] && st.content == []) || SlideOpen(st)
    ensures RunFrom(st, [SlideHeader(n, slide.heading)] + slide.lines)
         == st.(slides := Flushed(st), heading := slide.heading, content := slide.lines)
  {
    var header := SlideHeader(n, slide.heading);
    RunFromConcat(st, [header], slide.lines);
    HeaderRun(st, n, slide.heading);
    var started := st.(slides := Flushed(st), heading := slide.heading, content := []);
    ContentRun(started, slide.lines);
    assert [] + slide.lines == slide.lines;
  }

  /** The state after the slide lines: every slide but the last saved, the last one open. */
  function AfterSlides(st: ParserState, slides: seq<OutlineSlide>): ParserState
    requires slides != []
  {
    var n := |slides|;
    st.(slides := st.slides + Emitted(slides[..n - 1]), heading := slides[n - 1].heading, content := slides[n - 1].lines)
  }

  lemma SlideLinesLast(slides: seq<OutlineSlide>)
    requires slides != []
    ensures var n := |slides|;
            SlideLines(slides)
            == SlideLines(slides[..n - 1]) + ([SlideHeader(n, slides[n - 1].heading)] + slides[n - 1].lines)
  {
  }

  lemma EmittedLast(slides: seq<OutlineSlide>, prefix: seq<SlideData>)
    requires slides != []
    ensures var n := |slides|;
            prefix + Emitted(slides)
            == prefix + Emitted(slides[..n - 1]) + [SlideData(slides[n - 1].heading, Join(slides[n - 1].lines, "\n"))]
  {
    var n := |slides|;
    var x := SlideData(slides[n - 1].heading, Join(slides[n - 1].lines, "\n"));
    assert Emitted(slides) == Emitted(slides[..n - 1]) + [x];
    AppendAssoc(prefix, Emitted(slides[..n - 1]), [x]);
  }

  /** The first slide block, from a state without a heading. */
  lemma FirstBlockRun(st: ParserState, slides: seq<OutlineSlide>)
    requires st.heading == [] && st.content == []
    requires |slides| == 1 && WellFormedSlide(slides[0])
    ensures RunFrom(st, [SlideHeader(1, slides[0].heading)] + slides[0].lines) == AfterSlides(st, slides)
  {
    BlockRun(st, 1, slides[0]);
    assert st.slides + Emitted(slides[..0]) == st.slides;
  }

  /** A later slide block, after the open block of the slide before it. */
  lemma NextBlockRun(st: ParserState, slides: seq<OutlineSlide>)
    requires |slides| >= 2
    requires forall k :: 0 <= k < |slides| ==> WellFormedSlide(slides[k])
    ensures var n := |slides|;
            RunFrom(AfterSlides(st, slides[..n - 1]), [SlideHeader(n, slides[n - 1].heading)] + slides[n - 1].lines)
            == AfterSlides(st, slides)
  {
    var n := |slides|;
    var init := slides[..n - 1];
    var before := AfterSlides(st, init);
    assert WellFormedSlide(init[n - 2]);
    BlockRun(before, n, slides[n - 1]);
    FlushedAfterSlides(st, init);
  }

  /** Saving the open last slide completes the emitted list. */
  lemma FlushedAfterSlides(st: ParserState, slides: seq<OutlineSlide>)
    requires slides != []
    requires WellFormedSlide(slides[|slides| - 1])
    ensures SlideOpen(AfterSlides(st, slides))
    ensures Flushed(AfterSlides(st, slides)) == st.slides + Emitted(slides)
  {
    EmittedLast(slides, st.slides);
  }

  /** One more slide block, from the state the earlier blocks reach. */
  lemma SlideBlocksStep(st: ParserState, slides: seq<OutlineSlide>)
    requires st.heading == [] && st.content == []
    requires slides != []
    requires forall k :: 0 <= k < |slides| ==> WellFormedSlide(slides[k])
    requires var init := slides[..|slides| - 1];
             RunFrom(st, SlideLines(init)) == if init == [] then st else AfterSlides(st, init)
    ensures RunFrom(st, SlideLines(slides)) == AfterSlides(st, slides)
  {
    var n := |slides|;
    SlideLinesLast(slides);
    RunFromConcat(st, SlideLines(slides[..n - 1]), [SlideHeader(n, slides[n - 1].heading)] + slides[n - 1].lines);
    if n == 1 {
      FirstBlockRun(st, slides);
    } else {
      NextBlockRun(st, slides);
    }
  }

  lemma {:induction false} SlideBlocksRun(st: ParserState, slides: seq<OutlineSlide>)
    requires st.heading == [] && st.content == []
    requires forall k :: 0 <= k < |slides| ==> WellFormedSlide(slides[k])
    ensures RunFrom(st, SlideLines(slides)) == if slides == [] then st else AfterSlides(st, slides)
  {
    if slides != [] {
      SlideBlocksRun(st, slides[..|slides| - 1]);
      SlideBlocksStep(st, slides);
    }
  }

  /** Two lines that `trim` leaves alone are two steps. */
  lemma RunTwo(st: ParserState, a: string, b: string)
    requires Trim(a) == a && Trim(b) == b
    ensures RunFrom(st, [a, b]) == Step(Step(st, a), b)
  {
    var first := RunFrom(st, [a]);
    RunOne(st, a);
    RunFromLast(st, [a, b]);
    assert [a, b][..1] == [a] && [a, b][1] == b;
    assert RunFrom(st, [a, b]) == Step(first, b);
  }

  /** A line that `trim` leaves alone is one step. */
  lemma RunOne(st: ParserState, a: string)
    requires Trim(a) == a
    ensures RunFrom(st, [a]) == Step(st, a)
  {
    RunFromLast(st, [a]);
    assert [a][..0] == [];
  }

  lemma TitleLineStep(st: ParserState, t: string)
    requires FieldText(t)
    ensures Step(st, "Title: " + t) == st.(title := Some(t))
  {
    var l := "Title: " + t;
    assert l == "Title:" + " " + t by {
      assert "Title: " == "Title:" + " ";
    }
    LabelledLineCapture("Title:", t);
    assert l[..6] == "Title:";
  }

  lemma OverviewLineStep(st: ParserState, v: string)
    requires FieldText(v)
    ensures Step(st, "Overview: " + v) == st.(overview := Some(v))
  {
    var l := "Overview: " + v;
    assert l == "Overview:" + " " + v by {
      assert "Overview: " == "Overview:" + " ";
    }
    LabelledLineCapture("Overview:", v);
    assert l[..9] == "Overview:";
    PrefixesExclusive(l);
  }

  lemma MinuteLineStep(st: ParserState, m: nat)
    ensures Step(st, "Minute Read: " + DecimalString(m)) == st.(minuteRead := Some(m))
  {
    var l := "Minute Read: " + DecimalString(m);
    MinuteLineCapture(m);
    assert l[..12] == "Minute Read:";
    PrefixesExclusive(l);
  }

  lemma TakeawayLineStep(st: ParserState, kt: string)
    requires FieldText(kt)
    requires st.heading == [] || |st.content| > 0
    ensures Step(st, "Key Takeaway: " + kt)
         == st.(slides := Flushed(st), heading := [], content := if SlideOpen(st) then [] else st.content,
                keyTakeaway := Some(kt))
  {
    var l := "Key Takeaway: " + kt;
    assert l == "Key Takeaway:" + " " + kt by {
      assert "Key Takeaway: " == "Key Takeaway:" + " ";
    }
    LabelledLineCapture("Key Takeaway:", kt);
    assert l[..13] == "Key Takeaway:";
    KeyTakeawayLineStep(st, l);
  }

  /** Running the title and overview lines from the start. */
  lemma HeadRun(o: Outline)
    requires FieldText(o.title) && FieldText(o.overview)
    ensures RunFrom(Start, ["Title: " + o.title, "Overview: " + o.overview])
         == Start.(title := Some(o.title), overview := Some(o.overview))
  {
    FieldTextIsClean("Title: ", o.title);
    FieldTextIsClean("Overview: ", o.overview);
    CleanIsTrimmed("Title: " + o.title);
    CleanIsTrimmed("Overview: " + o.overview);
    RunTwo(Start, "Title: " + o.title, "Overview: " + o.overview);
    TitleLineStep(Start, o.title);
    OverviewLineStep(Start.(title := Some(o.title)), o.overview);
  }

  /** Running the key takeaway and minute-read lines after the slides. */
  lemma TailRun(st: ParserState, kt: string, m: nat)
    requires FieldText(kt)
    requires st.heading == [] || |st.content| > 0
    ensures var r := RunFrom(st, ["Key Takeaway: " + kt, "Minute Read: " + DecimalString(m)]);
            && r.title == st.title && r.overview == st.overview
            && r.keyTakeaway == Some(kt) && r.minuteRead == Some(m)
            && r.slides == Flushed(st) && r.heading == [] && (st.heading == [] ==> r.content == st.content)
  {
    var k, d := "Key Takeaway: " + kt, "Minute Read: " + DecimalString(m);
    FieldTextIsClean("Key Takeaway: ", kt);
    DigitsAreClean(DecimalString(m));
    CleanIsTrimmed(k);
    CleanIsTrimmed(d);
    RunTwo(st, k, d);
    TailSteps(st, kt, m);
    var r := RunFrom(st, [k, d]);
    assert r == Step(Step(st, k), d);
  }

  /** The two steps of `TailRun`, one line after the other. */
  lemma TailSteps(st: ParserState, kt: string, m: nat)
    requires FieldText(kt)
    requires st.heading == [] || |st.content| > 0
    ensures var r := Step(Step(st, "Key Takeaway: " + kt), "Minute Read: " + DecimalString(m));
            && r.title == st.title && r.overview == st.overview
            && r.keyTakeaway == Some(kt) && r.minuteRead == Some(m)
            && r.slides == Flushed(st) && r.heading == [] && (st.heading == [] ==> r.content == st.content)
  {
    var afterTakeaway := Step(st, "Key Takeaway: " + kt);
    TakeawayLineStep(st, kt);
    MinuteLineStep(afterTakeaway, m);
  }

  /** The parser's state after the title, the overview and the slides. */
  function BodyState(o: Outline): ParserState
  {
    var afterHead := Start.(title := Some(o.title), overview := Some(o.overview));
    if o.slides == [] then afterHead else AfterSlides(afterHead, o.slides)
  }

  lemma BodyRun(o: Outline)
    requires WellFormedOutline(o)
    ensures RunFrom(Start, ["Title: " + o.title, "Overview: " + o.overview] + SlideLines(o.slides)) == BodyState(o)
  {
    var head := ["Title: " + o.title, "Overview: " + o.overview];
    RunFromConcat(Start, head, SlideLines(o.slides));
    HeadRun(o);
    SlideBlocksRun(Start.(title := Some(o.title), overview := Some(o.overview)), o.slides);
  }

  lemma BodyStateFlushed(o: Outline)
    requires WellFormedOutline(o)
    ensures BodyState(o).heading == [] || |BodyState(o).content| > 0
    ensures Flushed(BodyState(o)) == Emitted(o.slides)
  {
    if o.slides != [] {
      FlushedAfterSlides(Start.(title := Some(o.title), overview := Some(o.overview)), o.slides);
    }
  }

  /** `parseSummaryText` reads a well-formed outline back from its rendering. */
  lemma ParseRenderRoundTrip(o: Outline)
    requires WellFormedOutline(o)
    ensures Parse(Render(o)) == Expected(o)
  {
    RenderedLinesVisited(o);
    var head := ["Title: " + o.title, "Overview: " + o.overview];
    var tail := ["Key Takeaway: " + o.keyTakeaway, "Minute Read: " + DecimalString(o.minuteRead)];
    assert RenderLines(o) == head + SlideLines(o.slides) + tail;
    RunFromConcat(Start, head + SlideLines(o.slides), tail);
    BodyRun(o);
    BodyStateFlushed(o);
    TailRun(BodyState(o), o.keyTakeaway, o.minuteRead);
  }
}
