/**
 * Console answer validation (blackjack/user_input.py). A parser turns a raw line
 * into a response or into the sentinel string 'invalid'; get_user_input keeps
 * asking until a parse succeeds or the retries are used up, and then exits.
 */
module UserInput {
  import opened PyText

  /** What a parser returns: a yes/no answer, or a string (the sentinel is one). */
  datatype Response = Flag(b: bool) | Text(s: string)

  const INVALID_RESPONSE: Response := Text("invalid")

  /** yes_no_response: 'y'/'yes' is True and 'n'/'no' is False, in any letter case. */
  function YesNoResponse(response: string): (r: Response)
    ensures r == Flag(true) <==> Lower(response) == "y" || Lower(response) == "yes"
    ensures r == Flag(false) <==> Lower(response) == "n" || Lower(response) == "no"
    ensures r != Flag(true) && r != Flag(false) ==> r == INVALID_RESPONSE
  {
    var lowered := Lower(response);
    if lowered == "y" || lowered == "yes" then Flag(true)
    else if lowered == "n" || lowered == "no" then Flag(false)
    else INVALID_RESPONSE
  }

  /** choice_response: the lowered answer when it is one of the choices, else 'invalid'. */
  function ChoiceResponse(response: string, choices: seq<string>): (r: Response)
    ensures r != INVALID_RESPONSE ==> r == Text(Lower(response)) && Lower(response) in choices
    ensures "invalid" !in choices ==> (r == INVALID_RESPONSE <==> Lower(response) !in choices)
  {
    var lowered := Lower(response);
    if lowered !in choices then INVALID_RESPONSE else Text(lowered)
  }

  /** Answering in upper case, lower case or mixed case makes no difference. */
  lemma CaseInsensitive(response: string, choices: seq<string>)
    ensures YesNoResponse(Lower(response)) == YesNoResponse(response)
    ensures ChoiceResponse(Lower(response), choices) == ChoiceResponse(response, choices)
  {
    LowerIdempotent(response);
  }

  /** How get_user_input ends: with an answer, through max_retries_exit, or when input runs out (EOFError). */
  datatype InputOutcome = Answer(response: Response) | MaxRetriesExit | EndOfInput

  /**
   * get_user_input over the lines `raws` still to be typed: `used` is the number of
   * lines read. The parser runs at most `retries` times and the first response
   * that is not 'invalid' is returned; if every one of `retries` attempts is
   * invalid the program exits instead. A negative `retries` reads nothing and
   * returns 'invalid'.
   */
  method GetUserInput(raws: seq<string>, parse: string -> Response, retries: int)
    returns (outcome: InputOutcome, used: nat)
    ensures used <= |raws| && (retries >= 0 ==> used <= retries)
    ensures retries < 0 ==> outcome == Answer(INVALID_RESPONSE) && used == 0
    ensures outcome.Answer? && retries >= 0 ==>
              used >= 1 && outcome.response == parse(raws[used - 1]) && outcome.response != INVALID_RESPONSE
              && forall j :: 0 <= j < used - 1 ==> parse(raws[j]) == INVALID_RESPONSE
    ensures outcome == MaxRetriesExit <==>
              retries >= 0 && retries <= |raws| && forall j :: 0 <= j < retries ==> parse(raws[j]) == INVALID_RESPONSE
    ensures outcome == EndOfInput <==>
              retries > |raws| && forall j :: 0 <= j < |raws| ==> parse(raws[j]) == INVALID_RESPONSE
  {
    var attempts: nat := 0;
    var response := INVALID_RESPONSE;
    while response == INVALID_RESPONSE && attempts < retries
      invariant attempts <= |raws| && (retries >= 0 ==> attempts <= retries) && (retries < 0 ==> attempts == 0)
      invariant attempts == 0 ==> response == INVALID_RESPONSE
      invariant attempts > 0 ==> response == parse(raws[attempts - 1])
      invariant forall j :: 0 <= j < attempts - 1 ==> parse(raws[j]) == INVALID_RESPONSE
      decreases retries - attempts
    {
      if attempts == |raws| {
        return EndOfInput, attempts;
      }
      response := parse(raws[attempts]);
      attempts := attempts + 1;
    }
    if attempts == retries && response == INVALID_RESPONSE {
      return MaxRetriesExit, attempts;
    }
    return Answer(response), attempts;
  }
}
