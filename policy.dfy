/** The context-window policy: `ChatbotConfig` keeps a default window length,
    fixed at construction, and the current one, which every user input resets
    from the input's whitespace word count. */
module Policy {
  import opened Words

  /** Word counts strictly above this are complex input. */
  const ComplexThreshold := 20
  /** Word counts strictly above this (and at most ComplexThreshold) are medium input. */
  const MediumThreshold := 10
  const ComplexWindow := 10
  const MediumWindow := 7
  /** The default window when the constructor is given none. */
  const DefaultWindow := 5

  /** The observable state of a `ChatbotConfig`. */
  datatype ConfigState = ConfigState(defaultLength: int, currentLength: int)

  /** The window chosen for an input of `score` words. */
  function WindowFor(score: nat, defaultLength: int): (w: int)
    ensures w == ComplexWindow || w == MediumWindow || w == defaultLength
  {
    if score > ComplexThreshold then ComplexWindow
    else if score > MediumThreshold then MediumWindow
    else defaultLength
  }

  function Initial(defaultLength: int): ConfigState {
    ConfigState(defaultLength, defaultLength)
  }

  /** State after `set_context_length(length)`. */
  function WithLength(c: ConfigState, length: int): ConfigState {
    c.(currentLength := length)
  }

  /** State after `adjust_context_based_on_complexity(input)`. */
  function Adjusted(c: ConfigState, input: string): ConfigState {
    WithLength(c, WindowFor(WordCount(input), c.defaultLength))
  }

  /** The thresholds, stated on the input text: more than 20 words gives 10,
      11 to 20 words give 7, and anything shorter, including empty or
      all-whitespace input, gives the default. */
  lemma AdjustedWindow(c: ConfigState, input: string)
    ensures WordCount(input) > 20 ==> Adjusted(c, input).currentLength == 10
    ensures 10 < WordCount(input) <= 20 ==> Adjusted(c, input).currentLength == 7
    ensures WordCount(input) <= 10 ==> Adjusted(c, input).currentLength == c.defaultLength
    ensures AllSpace(input) ==> Adjusted(c, input).currentLength == c.defaultLength
  {
  }

  /** Neither operation changes the default length. */
  lemma DefaultPreserved(c: ConfigState, input: string, length: int)
    ensures Adjusted(c, input).defaultLength == c.defaultLength
    ensures WithLength(c, length).defaultLength == c.defaultLength
  {
  }

  /** Adjusting twice on the same input is the same as adjusting once. */
  lemma AdjustIdempotent(c: ConfigState, input: string)
    ensures Adjusted(Adjusted(c, input), input) == Adjusted(c, input)
  {
  }

  /** The next adjustment overwrites any manual override: the result does not
      depend on the current length at all. */
  lemma OverrideIsTransient(c: ConfigState, length: int, input: string)
    ensures Adjusted(WithLength(c, length), input) == Adjusted(c, input)
  {
  }

  /** With a default of at most 7, a longer input never gets a smaller window. */
  lemma WindowMonotone(s1: nat, s2: nat, defaultLength: int)
    requires defaultLength <= MediumWindow
    requires s1 <= s2
    ensures WindowFor(s1, defaultLength) <= WindowFor(s2, defaultLength)
  {
  }

  /** The boundaries of the code's strict comparisons: 10 words stay at the
      default, 11 and 20 words give 7, 21 words give 10. */
  lemma WindowBoundaries(defaultLength: int)
    ensures WindowFor(10, defaultLength) == defaultLength
    ensures WindowFor(11, defaultLength) == 7 && WindowFor(20, defaultLength) == 7
    ensures WindowFor(21, defaultLength) == 10
  {
  }

  class ChatbotConfig {
    var defaultContextLength: int
    var currentContextLength: int

    function State(): ConfigState
      reads this
    {
      ConfigState(defaultContextLength, currentContextLength)
    }

    constructor (defaultContextLength: int := DefaultWindow)
      ensures State() == Initial(defaultContextLength)
      ensures currentContextLength == this.defaultContextLength == defaultContextLength
    {
      this.defaultContextLength := defaultContextLength;
      this.currentContextLength := defaultContextLength;
    }

    /** Manual override of the current window. */
    method SetContextLength(length: int)
      modifies this`currentContextLength
      ensures State() == WithLength(old(State()), length)
      ensures currentContextLength == length
    {
      currentContextLength := length;
    }

    method AdjustContextBasedOnComplexity(userInput: string)
      modifies this`currentContextLength
      ensures State() == Adjusted(old(State()), userInput)
      ensures currentContextLength in {ComplexWindow, MediumWindow, defaultContextLength}
    {
      var complexityScore := WordCount(userInput);
      if complexityScore > ComplexThreshold {
        SetContextLength(ComplexWindow);
      } else if complexityScore > MediumThreshold {
        SetContextLength(MediumWindow);
      } else {
        SetContextLength(defaultContextLength);
      }
    }
  }
}
