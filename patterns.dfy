/**
 * The five regular expressions (three shapes) of `parseSummaryText` (utils/generateSummary.ts),
 * with the semantics of JavaScript's `String.prototype.match` without the `g`
 * flag: the match starts at the leftmost position where the pattern can match,
 * quantifiers are greedy and give characters back when the rest of the pattern
 * needs them, and the result is the first capture group.
 *
 *   /Title:\s*(.+)/  /Overview:\s*(.+)/  /Key Takeaway:\s*(.+)/   LabelledText(lead)
 *   /Slide \d+:\s*(.+)/                                          SlideHeading
 *   /Minute Read:\s*(\d+)/                                       MinuteDigits
 */
module SummaryPatterns {
  import opened Wrappers
  import opened Text

  datatype Pattern = LabelledText(prefix: string) | SlideHeading | MinuteDigits

  const TitlePattern: Pattern := LabelledText("Title:")
  const OverviewPattern: Pattern := LabelledText("Overview:")
  const TakeawayPattern: Pattern := LabelledText("Key Takeaway:")

  /** The character classes `\s`, `\d` and `.`. */
  datatype CharClass = Space | Digit | AnyButTerminator

  predicate InClass(cls: CharClass, c: char)
  {
    match cls
    case Space => IsWhite(c)
    case Digit => IsDigit(c)
    case AnyButTerminator => !IsLineTerminator(c)
  }

  /** Where a greedy `cls*` that starts at `i` stops: the first index from `i` on outside the class. */
  function RunEnd(cls: CharClass, s: string, i: nat): (r: nat)
    requires i <= |s|
    ensures i <= r <= |s|
    ensures forall k :: i <= k < r ==> InClass(cls, s[k])
    ensures r == |s| || !InClass(cls, s[r])
    decreases |s| - i
  {
    if i < |s| && InClass(cls, s[i]) then RunEnd(cls, s, i + 1) else i
  }

  /**
   * `\s*(.+)` from index `i`: the greedy `\s*` takes the whole white run, and
   * gives characters back (from `j` down to `i`) until `(.+)` can take at least one.
   */
  function RestCapture(s: string, i: nat): (r: Option<string>)
    requires i <= |s|
    ensures r.Some? ==> r.value != [] && forall k :: 0 <= k < |r.value| ==> !IsLineTerminator(r.value[k])
  {
    BackCapture(s, i, RunEnd(Space, s, i))
  }

  function BackCapture(s: string, i: nat, j: nat): (r: Option<string>)
    requires i <= j <= |s|
    ensures r.Some? ==> r.value != [] && forall k :: 0 <= k < |r.value| ==> !IsLineTerminator(r.value[k])
    decreases j - i
  {
    var e := RunEnd(AnyButTerminator, s, j);
    if e > j then Some(s[j..e])
    else if j == i then None
    else BackCapture(s, i, j - 1)
  }

  predicate LiteralAt(s: string, p: nat, lit: string)
  {
    p + |lit| <= |s| && s[p..p + |lit|] == lit
  }

  /** The capture of `pat` when the match must start at index `p`, if it can. */
  function MatchAt(pat: Pattern, s: string, p: nat): (r: Option<string>)
    requires p <= |s|
    ensures r.Some? ==> r.value != []
    ensures r.Some? && pat.MinuteDigits? ==> AllDigits(r.value)
    ensures r.Some? && !pat.MinuteDigits? ==> forall k :: 0 <= k < |r.value| ==> !IsLineTerminator(r.value[k])
  {
    match pat
    case LabelledText(lead) =>
      if LiteralAt(s, p, lead) then RestCapture(s, p + |lead|) else None
    case SlideHeading =>
      if LiteralAt(s, p, "Slide ") then
        var q := RunEnd(Digit, s, p + 6);
        if q > p + 6 && q < |s| && s[q] == ':' then RestCapture(s, q + 1) else None
      else None
    case MinuteDigits =>
      if LiteralAt(s, p, "Minute Read:") then
        var k := RunEnd(Space, s, p + 12);
        var e := RunEnd(Digit, s, k);
        if e > k then Some(s[k..e]) else None
      else None
  }

  /** The leftmost match at index `p` or later. */
  function SearchFrom(pat: Pattern, s: string, p: nat): (r: Option<string>)
    requires p <= |s|
    ensures r.Some? ==> r.value != []
    ensures r.Some? && pat.MinuteDigits? ==> AllDigits(r.value)
    ensures r.Some? && !pat.MinuteDigits? ==> forall k :: 0 <= k < |r.value| ==> !IsLineTerminator(r.value[k])
    decreases |s| - p
  {
    match MatchAt(pat, s, p)
    case Some(c) => Some(c)
    case None => if p == |s| then None else SearchFrom(pat, s, p + 1)
  }

  /** `s.match(pat)?.[1]`: the first capture group of the leftmost match. */
  function Exec(pat: Pattern, s: string): (r: Option<string>)
    ensures r.Some? ==> r.value != []
    ensures r.Some? && pat.MinuteDigits? ==> AllDigits(r.value)
    ensures r.Some? && !pat.MinuteDigits? ==> forall k :: 0 <= k < |r.value| ==> !IsLineTerminator(r.value[k])
  {
    SearchFrom(pat, s, 0)
  }

  /** The text of `t` up to its first line terminator: what a greedy `.+` or `.*` takes. */
  function UpToTerminator(t: string): string
  {
    if t == [] || IsLineTerminator(t[0]) then [] else [t[0]] + UpToTerminator(t[1..])
  }

  /** The leading decimal digits of `t`: what a greedy `\d+` takes. */
  function LeadingDigits(t: string): string
  {
    if t == [] || !IsDigit(t[0]) then [] else [t[0]] + LeadingDigits(t[1..])
  }

  // ----- Leftmost-match semantics -----

  /** The search returns the match at the first index where the pattern matches. */
  lemma {:induction false} SearchFindsFirst(pat: Pattern, s: string, p: nat, m: nat)
    requires p <= m <= |s|
    requires MatchAt(pat, s, m).Some?
    requires forall q :: p <= q < m ==> MatchAt(pat, s, q).None?
    ensures SearchFrom(pat, s, p) == MatchAt(pat, s, m)
    decreases m - p
  {
    if p < m {
      SearchFindsFirst(pat, s, p + 1, m);
    }
  }

  /** The search fails exactly when the pattern matches at no index from `p` on. */
  lemma {:induction false} SearchFailsEverywhere(pat: Pattern, s: string, p: nat)
    requires p <= |s|
    ensures SearchFrom(pat, s, p).None? <==> forall q :: p <= q <= |s| ==> MatchAt(pat, s, q).None?
    decreases |s| - p
  {
    if p < |s| {
      SearchFailsEverywhere(pat, s, p + 1);
    }
  }

  /** `Exec` is the leftmost match: no match starts earlier, and it is the capture at its start. */
  lemma ExecIsLeftmost(pat: Pattern, s: string, m: nat)
    requires m <= |s|
    requires MatchAt(pat, s, m).Some?
    requires forall q :: 0 <= q < m ==> MatchAt(pat, s, q).None?
    ensures Exec(pat, s) == MatchAt(pat, s, m)
  {
    SearchFindsFirst(pat, s, 0, m);
  }

  // ----- Relating scans to the string functions of Text -----

  lemma PrefixOfSuffix(s: string, k: nat, e: nat)
    requires k <= e <= |s|
    ensures s[k..][..e - k] == s[k..e]
  {
  }

  /** A scan is determined by where its class run ends. */
  lemma {:induction false} RunEndIs(cls: CharClass, s: string, i: nat, r: nat)
    requires i <= r <= |s|
    requires forall k :: i <= k < r ==> InClass(cls, s[k])
    requires r == |s| || !InClass(cls, s[r])
    ensures RunEnd(cls, s, i) == r
    decreases r - i
  {
    if i < r {
      RunEndIs(cls, s, i + 1, r);
    }
  }

  /** A scan from `i` is the same scan on the suffix from `j <= i`, shifted by `j`. */
  lemma {:induction false} RunEndShift(cls: CharClass, s: string, j: nat, i: nat)
    requires j <= i <= |s|
    ensures RunEnd(cls, s, i) - j == RunEnd(cls, s[j..], i - j)
    decreases |s| - i
  {
    if i < |s| && InClass(cls, s[i]) {
      assert s[j..][i - j] == s[i];
      RunEndShift(cls, s, j, i + 1);
    }
  }

  /** Scanning from 0 over one class character is one more than scanning the tail. */
  lemma RunEndStep(cls: CharClass, t: string)
    requires t != [] && InClass(cls, t[0])
    ensures RunEnd(cls, t, 0) == 1 + RunEnd(cls, t[1..], 0)
  {
    RunEndShift(cls, t, 1, 1);
  }

  /** TrimStart removes exactly the white run that `\s*` takes. */
  lemma {:induction false} TrimStartIsSpaceRun(t: string)
    ensures TrimStart(t) == t[RunEnd(Space, t, 0)..]
  {
    if t != [] && IsWhite(t[0]) {
      TrimStartIsSpaceRun(t[1..]);
      RunEndStep(Space, t);
    }
  }

  /** The greedy `.` run from 0 takes `UpToTerminator`. */
  lemma {:induction false} DotRunIsUpToTerminator(t: string)
    ensures t[..RunEnd(AnyButTerminator, t, 0)] == UpToTerminator(t)
  {
    if t != [] && !IsLineTerminator(t[0]) {
      DotRunIsUpToTerminator(t[1..]);
      RunEndStep(AnyButTerminator, t);
      assert t[..RunEnd(AnyButTerminator, t, 0)] == [t[0]] + t[1..][..RunEnd(AnyButTerminator, t[1..], 0)];
    }
  }

  /** The greedy digit run from 0 takes `LeadingDigits`. */
  lemma {:induction false} DigitRunIsLeadingDigits(t: string)
    ensures t[..RunEnd(Digit, t, 0)] == LeadingDigits(t)
  {
    if t != [] && IsDigit(t[0]) {
      DigitRunIsLeadingDigits(t[1..]);
      RunEndStep(Digit, t);
      assert t[..RunEnd(Digit, t, 0)] == [t[0]] + t[1..][..RunEnd(Digit, t[1..], 0)];
    }
  }

  /** A text with no line terminator is taken whole by `.*`. */
  lemma {:induction false} UpToTerminatorOfClean(t: string)
    requires forall k :: 0 <= k < |t| ==> !IsLineTerminator(t[k])
    ensures UpToTerminator(t) == t
  {
    if t != [] {
      UpToTerminatorOfClean(t[1..]);
    }
  }

  /** A run of digits is taken whole by `\d+`. */
  lemma {:induction false} LeadingDigitsOfDigits(t: string)
    requires AllDigits(t)
    ensures LeadingDigits(t) == t
  {
    if t != [] {
      LeadingDigitsOfDigits(t[1..]);
    }
  }

  /** The rest of `s` from `i`, less its leading white space, starts where the white run from `i` ends. */
  lemma TrimStartOfSuffix(s: string, i: nat)
    requires i <= |s|
    ensures TrimStart(s[i..]) == s[RunEnd(Space, s, i)..]
  {
    RunEndShift(Space, s, i, i);
    TrimStartIsSpaceRun(s[i..]);
    SuffixOfSuffix(s, i, RunEnd(Space, s, i));
  }

  lemma SuffixOfSuffix(s: string, i: nat, j: nat)
    requires i <= j <= |s|
    ensures s[i..][j - i..] == s[j..]
  {
  }

  /** `\s*(.+)` from `i` captures from the end `k` of the white run when a `.` character is there. */
  lemma RestCaptureAt(s: string, i: nat, k: nat)
    requires i <= k < |s|
    requires RunEnd(Space, s, i) == k
    requires !IsLineTerminator(s[k])
    ensures RestCapture(s, i) == Some(s[k..RunEnd(AnyButTerminator, s, k)])
  {
    assert InClass(AnyButTerminator, s[k]);
    assert RunEnd(AnyButTerminator, s, k) > k;
  }

  /** `\s*(.+)` from `i` captures from the end `k` of the white run up to the first line terminator. */
  lemma RestCaptureFromRunEnd(s: string, i: nat, k: nat)
    requires i <= k < |s|
    requires RunEnd(Space, s, i) == k
    requires !IsWhite(s[k])
    ensures RestCapture(s, i) == Some(UpToTerminator(s[k..]))
  {
    RestCaptureAt(s, i, k);
    var e := RunEnd(AnyButTerminator, s, k);
    RunEndShift(AnyButTerminator, s, k, k);
    DotRunIsUpToTerminator(s[k..]);
    PrefixOfSuffix(s, k, e);
  }

  /**
   * When a non-white character follows the white run from `i`, `\s*(.+)` from `i`
   * captures the text after the white run, up to the first line terminator.
   */
  lemma RestCaptureAfterSpace(s: string, i: nat)
    requires i <= |s|
    requires RunEnd(Space, s, i) < |s|
    ensures RestCapture(s, i) == Some(UpToTerminator(TrimStart(s[i..])))
  {
    var k := RunEnd(Space, s, i);
    assert !InClass(Space, s[k]);
    RestCaptureFromRunEnd(s, i, k);
    TrimStartOfSuffix(s, i);
  }

  // ----- The patterns on the trimmed lines the parser classifies -----

  /** On a line that ends in a non-white character, the white run from any earlier index stops before the end. */
  lemma SpaceRunStopsBeforeEnd(s: string, i: nat)
    requires i < |s| && !IsWhite(s[|s| - 1])
    ensures RunEnd(Space, s, i) < |s|
  {
  }

  /**
   * A trimmed line starting with `lead` (a prefix ending in ':'): a bare prefix has no
   * capture; otherwise the capture is the text after the prefix with its leading white
   * space removed, up to the first line terminator.
   */
  lemma LabelledTextOnTrimmedLine(lead: string, s: string)
    requires lead != [] && lead[|lead| - 1] == ':'
    requires StartsWith(s, lead)
    requires Trim(s) == s
    ensures Exec(LabelledText(lead), s)
         == if |s| == |lead| then None else Some(UpToTerminator(TrimStart(s[|lead|..])))
  {
    var pat := LabelledText(lead);
    assert LiteralAt(s, 0, lead);
    if |s| == |lead| {
      assert RunEnd(Space, s, |lead|) == |s|;
      assert RunEnd(AnyButTerminator, s, |s|) == |s|;
      assert MatchAt(pat, s, 0) == None;
      forall q | 0 <= q <= |s| ensures MatchAt(pat, s, q).None? {
        if q > 0 {
          assert !LiteralAt(s, q, lead);
        }
      }
      SearchFailsEverywhere(pat, s, 0);
    } else {
      SpaceRunStopsBeforeEnd(s, |lead|);
      RestCaptureAfterSpace(s, |lead|);
      ExecIsLeftmost(pat, s, 0);
    }
  }

  /** The stronger form for a line without line terminators: the rest of the line after the prefix and its white space. */
  lemma LabelledTextOnCleanLine(lead: string, s: string)
    requires lead != [] && lead[|lead| - 1] == ':'
    requires StartsWith(s, lead) && |s| > |lead|
    requires Trim(s) == s
    requires forall k :: 0 <= k < |s| ==> !IsLineTerminator(s[k])
    ensures Exec(LabelledText(lead), s) == Some(TrimStart(s[|lead|..]))
  {
    LabelledTextOnTrimmedLine(lead, s);
    TrimStartOfSuffix(s, |lead|);
    SuffixHasNoTerminator(s, RunEnd(Space, s, |lead|));
    UpToTerminatorOfClean(TrimStart(s[|lead|..]));
  }

  lemma SuffixHasNoTerminator(s: string, j: nat)
    requires j <= |s|
    requires forall k :: 0 <= k < |s| ==> !IsLineTerminator(s[k])
    ensures forall k :: 0 <= k < |s[j..]| ==> !IsLineTerminator(s[j..][k])
  {
    forall k | 0 <= k < |s[j..]| ensures !IsLineTerminator(s[j..][k]) {
      assert s[j..][k] == s[j + k];
    }
  }

  /** A bare prefix, such as a line holding only "Title:", has no capture, so it leaves its field as it was. */
  lemma BarePrefixHasNoCapture(lead: string)
    requires lead != [] && lead[|lead| - 1] == ':' && !IsWhite(lead[0])
    ensures Exec(LabelledText(lead), lead) == None
  {
    TrimOfTrimmed(lead);
    assert StartsWith(lead, lead);
    LabelledTextOnTrimmedLine(lead, lead);
  }

  /**
   * A "Minute Read:" line whose first non-white character after the prefix is a digit
   * captures the maximal digit run there.
   */
  lemma MinuteDigitsAfterLabel(s: string)
    requires StartsWith(s, "Minute Read:")
    requires TrimStart(s[12..]) != [] && IsDigit(TrimStart(s[12..])[0])
    ensures Exec(MinuteDigits, s) == Some(LeadingDigits(TrimStart(s[12..])))
  {
    assert LiteralAt(s, 0, "Minute Read:");
    var k := RunEnd(Space, s, 12);
    TrimStartOfSuffix(s, 12);
    assert s[k..] == TrimStart(s[12..]);
    assert InClass(Digit, s[k]);
    assert RunEnd(Digit, s, k) > k;
    DigitRunFrom(s, k);
    ExecIsLeftmost(MinuteDigits, s, 0);
  }

  /** The greedy digit run from `k` takes the leading digits of the rest of `s`. */
  lemma DigitRunFrom(s: string, k: nat)
    requires k <= |s|
    ensures s[k..RunEnd(Digit, s, k)] == LeadingDigits(s[k..])
  {
    RunEndShift(Digit, s, k, k);
    DigitRunIsLeadingDigits(s[k..]);
    PrefixOfSuffix(s, k, RunEnd(Digit, s, k));
  }

  /** A line with no decimal digit at all never yields a minute-read value. */
  lemma MinuteDigitsNeedADigit(s: string)
    requires forall k :: 0 <= k < |s| ==> !IsDigit(s[k])
    ensures Exec(MinuteDigits, s) == None
  {
    forall q | 0 <= q <= |s| ensures MatchAt(MinuteDigits, s, q).None? {
      if LiteralAt(s, q, "Minute Read:") {
        var k := RunEnd(Space, s, q + 12);
        RunEndIs(Digit, s, k, k);
      }
    }
    SearchFailsEverywhere(MinuteDigits, s, 0);
  }

  /**
   * A "Minute Read:" line whose first non-white character after the prefix is not a digit
   * (such as "Minute Read: about 5") has no match, provided the prefix does not occur again
   * later in the line, where the unanchored pattern could still match.
   */
  lemma MinuteLabelWithoutDigits(s: string)
    requires StartsWith(s, "Minute Read:")
    requires TrimStart(s[12..]) == [] || !IsDigit(TrimStart(s[12..])[0])
    requires forall q :: 0 < q <= |s| ==> !LiteralAt(s, q, "Minute Read:")
    ensures Exec(MinuteDigits, s) == None
  {
    MinuteLabelNoDigitsAtStart(s);
    forall q | 0 <= q <= |s| ensures MatchAt(MinuteDigits, s, q).None? {
      if q > 0 {
        assert !LiteralAt(s, q, "Minute Read:");
      }
    }
    SearchFailsEverywhere(MinuteDigits, s, 0);
  }

  /** The match at index 0 of such a line finds an empty digit run and fails. */
  lemma MinuteLabelNoDigitsAtStart(s: string)
    requires StartsWith(s, "Minute Read:")
    requires TrimStart(s[12..]) == [] || !IsDigit(TrimStart(s[12..])[0])
    ensures MatchAt(MinuteDigits, s, 0).None?
  {
    var k := RunEnd(Space, s, 12);
    var rest := TrimStart(s[12..]);
    TrimStartOfSuffix(s, 12);
    assert s[k..] == rest;
    assert k == |s| || !InClass(Digit, s[k]) by {
      if k < |s| {
        assert s[k] == rest[0];
      }
    }
    RunEndIs(Digit, s, k, k);
    assert LiteralAt(s, 0, "Minute Read:");
  }

  /** The canonical slide header "Slide <n>: <heading>" captures the heading. */
  lemma SlideHeaderCapture(digits: string, heading: string)
    requires digits != [] && AllDigits(digits)
    requires heading != [] && !IsWhite(heading[0])
    requires forall k :: 0 <= k < |heading| ==> !IsLineTerminator(heading[k])
    ensures Exec(SlideHeading, "Slide " + digits + ": " + heading) == Some(heading)
  {
    var s := "Slide " + digits + ": " + heading;
    var q := 6 + |digits|;
    assert LiteralAt(s, 0, "Slide ");
    SlideHeaderDigits(digits, heading);
    SlideHeaderRest(digits, heading);
    assert MatchAt(SlideHeading, s, 0) == Some(heading);
    ExecIsLeftmost(SlideHeading, s, 0);
  }

  /** In a canonical slide header the digit run after "Slide " ends at the colon. */
  lemma SlideHeaderDigits(digits: string, heading: string)
    requires digits != [] && AllDigits(digits)
    ensures var s := "Slide " + digits + ": " + heading;
            && 6 + |digits| < |s| && s[6 + |digits|] == ':'
            && RunEnd(Digit, s, 6) == 6 + |digits|
  {
    var s := "Slide " + digits + ": " + heading;
    var d := |digits|;
    forall k | 6 <= k < 6 + d ensures InClass(Digit, s[k]) {
      assert s[k] == digits[k - 6];
    }
    assert s[6 + d] == ':';
    RunEndIs(Digit, s, 6, 6 + d);
  }

  /** After the colon of a canonical slide header, `\s*(.+)` captures the heading. */
  lemma SlideHeaderRest(digits: string, heading: string)
    requires heading != [] && !IsWhite(heading[0])
    requires forall k :: 0 <= k < |heading| ==> !IsLineTerminator(heading[k])
    ensures var s := "Slide " + digits + ": " + heading;
            RestCapture(s, 7 + |digits|) == Some(heading)
  {
    var s := "Slide " + digits + ": " + heading;
    var q := 6 + |digits|;
    assert s[q + 1] == ' ' && s[q + 2] == heading[0];
    RunEndIs(Space, s, q + 1, q + 2);
    var k := q + 2;
    forall j | k <= j < |s| ensures InClass(AnyButTerminator, s[j]) {
      assert s[j] == heading[j - k];
    }
    RunEndIs(AnyButTerminator, s, k, |s|);
    assert s[k..|s|] == heading;
    RestCaptureAt(s, q + 1, k);
  }
}
