/**
 * The outside world as the monitors see it. Every Telegram, OpenAI or file
 * system call a monitor makes is replaced by the outcome it reported, so
 * that the decisions around those calls can be stated without I/O.
 */
module Effects {
  import opened Wrappers

  /** Outcome of `re.compile(pattern, re.IGNORECASE).search(text)`. */
  datatype RegexOutcome = BadPattern | NoHit | Hit(group0: string)

  /**
   * What the image-and-button AI analysis returned: a plain string, a dict
   * with an optional `button_to_click` entry, or anything else.
   */
  datatype AiAnswer = AnswerText(text: string) | AnswerDict(buttonToClick: Option<string>) | AnswerOther

  datatype Environment = Environment(
    /** `search(pattern, text)` */
    regexSearch: (string, string) -> RegexOutcome,
    /** `AIService.is_configured()` */
    aiConfigured: bool,
    /** `get_chat_completion` for the match prompt; None or "" is an empty result. */
    aiCompletion: Option<string>,
    /** `analyze_button_choice` for the button monitor's AI mode. */
    aiButtonChoice: Option<string>,
    /** The image-and-button analysis result; None is a falsy result. */
    aiImageAnswer: Option<AiAnswer>,
    /** Whether the original message carries a photo or an image document. */
    hasImage: bool,
    /** Whether fetching the original message and clicking one of its buttons succeeded. */
    clickSucceeds: bool,
    /** Whether downloading a media file into the save folder produced a path. */
    downloadSucceeds: bool)
}
