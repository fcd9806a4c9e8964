/** The values a show session holds and the messages it exchanges with its
    clients: the question record, the timer setting (a number of seconds or
    the sentinel "unlimited"), the highlighted answer, the timer phase, and
    every outbound socket event with its payload fields. */
module Protocol {

  datatype Option<T> = None | Some(value: T)

  /** A timer setting: a whole number of seconds, or the string "unlimited". */
  datatype TimerValue = Seconds(n: int) | Unlimited

  /** The question object relayed to clients. The placeholder built at start-up
      and by remove-question has no timer, maxTimer or showOptions field; those
      absent fields are `None` here. */
  datatype Question = Question(
    text: string,
    options: seq<string>,
    timer: Option<TimerValue>,
    maxTimer: Option<TimerValue>,
    showOptions: Option<bool>)

  /** The empty question: blank text and four blank options. */
  const Placeholder: Question := Question("", ["", "", "", ""], None, None, None)

  /** `currentQuestion.showOptions` read as a JavaScript condition. */
  predicate OptionsShown(q: Question) {
    q.showOptions == Some(true)
  }

  datatype HighlightKind = Selected | Correct | Wrong

  /** `highlightedOption`: either `{index: null, type: null}` or an index with its kind. */
  datatype Highlight = NoHighlight | Highlighted(index: int, kind: HighlightKind)

  /** The phase reported in a `timer-state` event. */
  datatype Phase = Stopped | Running | Paused

  /** The payload of a `question-update` event. A missing `text` is read like
      the empty string (both fail the same test); a missing `options` array is
      `None`, and a missing option inside it is read as the empty string. */
  datatype QuestionPayload = QuestionPayload(text: string, options: Option<seq<string>>)

  /** Outbound events, with the payload fields they carry. */
  datatype Msg =
    | DisplayQuestion(question: Question)
    | ShowOptions
    | HighlightAnswer(index: int)
    | MarkCorrect(index: int)
    | MarkWrong(index: int)
    | TriggerAudio(cue: string)
      /** `update-timer {current, max, audioTrigger, startPosition?}` */
    | UpdateTimer(current: Option<TimerValue>, max: TimerValue, audioTrigger: bool, startPosition: Option<int>)
      /** `current-timer {current, max}` */
    | CurrentTimer(current: Option<TimerValue>, max: TimerValue)
    | FreezeTimer(audio: bool)
      /** `unfreeze-timer` with its audio flag and, when sent on resume, the audio offset */
    | UnfreezeTimer(audio: bool, offset: Option<int>)
    | TimerState(phase: Phase)
    | ClearQuestion
    | ChangeScreen(screen: string)

  /** The characters JavaScript's `String.prototype.trim` removes: white space
      and line terminators. */
  predicate IsTrimmed(c: char) {
    c in {'\t', '\n', '\U{000B}', '\U{000C}', '\r', ' ', '\U{00A0}', '\U{1680}',
          '\U{2000}', '\U{2001}', '\U{2002}', '\U{2003}', '\U{2004}', '\U{2005}',
          '\U{2006}', '\U{2007}', '\U{2008}', '\U{2009}', '\U{200A}', '\U{2028}',
          '\U{2029}', '\U{202F}', '\U{205F}', '\U{3000}', '\U{FEFF}'}
  }

  /** `s.trimStart()`: the string without its leading white space. */
  function TrimStart(s: string): (r: string)
    ensures |r| <= |s| && r == s[|s| - |r|..]
    ensures r == [] || !IsTrimmed(r[0])
    // every character removed is one `trim` removes
    ensures forall i :: 0 <= i < |s| - |r| ==> IsTrimmed(s[i])
    decreases |s|
  {
    if s != [] && IsTrimmed(s[0]) then
      assert forall i :: 1 <= i < |s| ==> s[i] == s[1..][i - 1];
      TrimStart(s[1..])
    else s
  }

  /** `s.trimEnd()`: the string without its trailing white space. */
  function TrimEnd(s: string): (r: string)
    ensures |r| <= |s| && r == s[..|r|]
    ensures r == [] || !IsTrimmed(r[|r| - 1])
    // every character removed is one `trim` removes
    ensures forall i :: |r| <= i < |s| ==> IsTrimmed(s[i])
    decreases |s|
  {
    if s != [] && IsTrimmed(s[|s| - 1]) then TrimEnd(s[..|s| - 1]) else s
  }

  /** `s.trim()`. */
  function Trim(s: string): (r: string)
    ensures |r| <= |s|
    ensures r == [] || (!IsTrimmed(r[0]) && !IsTrimmed(r[|r| - 1]))
  {
    TrimEnd(TrimStart(s))
  }

  /** Stripping leading white space leaves nothing exactly when the string is
      all white space; this follows from `TrimStart`'s contract. */
  lemma TrimStartEmpty(s: string)
    ensures TrimStart(s) == [] <==> forall i :: 0 <= i < |s| ==> IsTrimmed(s[i])
  {
  }

  /** The same for trailing white space and `TrimEnd`. */
  lemma TrimEndEmpty(s: string)
    ensures TrimEnd(s) == [] <==> forall i :: 0 <= i < |s| ==> IsTrimmed(s[i])
  {
  }

  /** `!s || !s.trim()`: the string is empty or only white space. */
  predicate Blank(s: string) {
    forall i :: 0 <= i < |s| ==> IsTrimmed(s[i])
  }

  /** Blank in the source's own terms: trimming leaves the empty string. */
  lemma BlankIsEmptyTrim(s: string)
    ensures Blank(s) <==> Trim(s) == []
  {
  }

  /** The guard of `question-update`: text present and not blank, options
      present, and no option blank. */
  predicate Acceptable(data: QuestionPayload) {
    !Blank(data.text) && data.options.Some? &&
    forall i :: 0 <= i < |data.options.value| ==> !Blank(data.options.value[i])
  }

  /** The guard accepts exactly the payloads whose text and every option are
      non-empty after `trim`, and that carry an options array. */
  lemma AcceptableIffTrimmedNonEmpty(data: QuestionPayload)
    ensures Acceptable(data) <==>
      Trim(data.text) != [] && data.options.Some? &&
      forall i :: 0 <= i < |data.options.value| ==> Trim(data.options.value[i]) != []
  {
  }

  /** The highlight event a late joiner is sent for the current highlight:
      nothing when no option is highlighted, else the one event of its kind. */
  function HighlightMessages(h: Highlight): (r: seq<Msg>)
    ensures h.NoHighlight? <==> r == []
    ensures h.Highlighted? ==>
      |r| == 1 && (r[0].HighlightAnswer? || r[0].MarkCorrect? || r[0].MarkWrong?) && r[0].index == h.index
    ensures h.Highlighted? ==>
      (h.kind == Selected <==> r[0].HighlightAnswer?) &&
      (h.kind == Correct <==> r[0].MarkCorrect?) &&
      (h.kind == Wrong <==> r[0].MarkWrong?)
  {
    match h
    case NoHighlight => []
    case Highlighted(i, Selected) => [HighlightAnswer(i)]
    case Highlighted(i, Correct) => [MarkCorrect(i)]
    case Highlighted(i, Wrong) => [MarkWrong(i)]
  }
}
