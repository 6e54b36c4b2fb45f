/** Post-processing of the AI task breakdown (`generateTaskBreakdown`):
    pick the JSON object out of the model's reply text, hand it to a JSON
    parser, then number the proposed subtasks and clamp their durations.
    The model call and the JSON parser are outside the model: the reply
    content and the parser are parameters. */
module Breakdown {

  import opened Wrappers
  import opened Tasks

  const MinDuration: int := 25
  const MaxDuration: int := 60
  const ParseFailureMessage: string := "Failed to parse AI response"

  /** First position of `c` in `s`, if any. */
  function FirstIndex(s: string, c: char): (r: Option<nat>)
    ensures r.None? <==> c !in s
    ensures r.Some? ==> r.value < |s| && s[r.value] == c && c !in s[..r.value]
    decreases |s|
  {
    if |s| == 0 then None
    else if s[0] == c then Some(0)
    else
      var rest := FirstIndex(s[1..], c);
      assert s == [s[0]] + s[1..];
      match rest
      case None => None
      case Some(k) =>
        assert s[..k + 1] == [s[0]] + s[1..][..k];
        Some(k + 1)
  }

  /** Last position of `c` in `s`, if any. */
  function LastIndex(s: string, c: char): (r: Option<nat>)
    ensures r.None? <==> c !in s
    ensures r.Some? ==> r.value < |s| && s[r.value] == c && c !in s[r.value + 1..]
    decreases |s|
  {
    if |s| == 0 then None
    else if s[|s| - 1] == c then Some(|s| - 1)
    else
      var rest := LastIndex(s[..|s| - 1], c);
      assert s == s[..|s| - 1] + [s[|s| - 1]];
      match rest
      case None => None
      case Some(k) =>
        assert s[k + 1..] == s[..|s| - 1][k + 1..] + [s[|s| - 1]];
        Some(k)
  }

  /** Some '{' precedes some '}' exactly when the first '{' precedes the
      last '}'. */
  lemma BracesOrdered(text: string)
    ensures (exists i, j :: 0 <= i < j < |text| && text[i] == '{' && text[j] == '}') <==>
      (FirstIndex(text, '{').Some? && LastIndex(text, '}').Some?
       && FirstIndex(text, '{').value < LastIndex(text, '}').value)
  {
    match (FirstIndex(text, '{'), LastIndex(text, '}'))
    case (Some(i), Some(j)) =>
      if i >= j {
        forall i', j' | 0 <= i' < j' < |text| && text[i'] == '{'
          ensures text[j'] != '}'
        {
          assert text[j + 1..][j' - j - 1] == text[j'];
        }
      }
    case (_, _) =>
  }

  /** The text from the first '{' to the last '}' is a span of the stated form. */
  lemma SpanWitness(text: string, i: nat, j: nat)
    requires FirstIndex(text, '{') == Some(i) && LastIndex(text, '}') == Some(j) && i < j
    ensures exists i', j' ::
      && 0 <= i' < j' < |text|
      && text[i..j + 1] == text[i'..j' + 1]
      && text[i'] == '{' && '{' !in text[..i']
      && text[j'] == '}' && '}' !in text[j' + 1..]
  {
    assert 0 <= i < j < |text| && text[i..j + 1] == text[i..j + 1]
      && text[i] == '{' && '{' !in text[..i] && text[j] == '}' && '}' !in text[j + 1..];
  }

  /** What the greedy pattern `\{[\s\S]*\}` matches: the leftmost match
      starts at the first '{', and the greedy middle stretches it to the
      last '}'. There is a match exactly when some '{' precedes some '}'. */
  function ExtractJsonSpan(text: string): (r: Option<string>)
    ensures r.Some? <==> exists i, j :: 0 <= i < j < |text| && text[i] == '{' && text[j] == '}'
    ensures r.Some? ==> exists i, j ::
      && 0 <= i < j < |text|
      && r.value == text[i..j + 1]
      && text[i] == '{' && '{' !in text[..i]
      && text[j] == '}' && '}' !in text[j + 1..]
  {
    BracesOrdered(text);
    match (FirstIndex(text, '{'), LastIndex(text, '}'))
    case (Some(i), Some(j)) =>
      if i < j then
        SpanWitness(text, i, j);
        Some(text[i..j + 1])
      else None
    case (_, _) => None
  }

  /** `Math.min(Math.max(d, 25), 60)`. */
  function ClampDuration(d: int): (r: int)
    ensures MinDuration <= r <= MaxDuration
    ensures MinDuration <= d <= MaxDuration ==> r == d
    ensures d < MinDuration ==> r == MinDuration
    ensures d > MaxDuration ==> r == MaxDuration
  {
    var atLeast := if d > MinDuration then d else MinDuration;
    if atLeast < MaxDuration then atLeast else MaxDuration
  }

  lemma ClampIdempotent(d: int)
    ensures ClampDuration(ClampDuration(d)) == ClampDuration(d)
  {
  }

  /** Spreads each parsed subtask, overriding `order` by its index and
      clamping `duration`. */
  function NumberAndClamp(parsed: seq<Subtask>): (r: seq<NumberedSubtask>)
    ensures |r| == |parsed|
    ensures forall i :: 0 <= i < |r| ==>
      && r[i].order == i
      && r[i].subtask.title == parsed[i].title
      && r[i].subtask.description == parsed[i].description
      && MinDuration <= r[i].subtask.duration <= MaxDuration
      && r[i].subtask.duration == ClampDuration(parsed[i].duration)
  {
    Number(seq(|parsed|, i requires 0 <= i < |parsed| =>
      Subtask(parsed[i].title, parsed[i].description, ClampDuration(parsed[i].duration))))
  }

  /** A subtask list already in range passes through unchanged apart from its numbering. */
  lemma NumberAndClampInRange(parsed: seq<Subtask>)
    requires forall i :: 0 <= i < |parsed| ==> MinDuration <= parsed[i].duration <= MaxDuration
    ensures Strip(NumberAndClamp(parsed)) == parsed
  {
  }

  /** One block of the model's reply; only the first is inspected. */
  datatype ContentBlock = TextBlock(text: string) | OtherBlock(kind: string)

  /** Why a breakdown fails: the reply has no first block (reading its type
      throws), the first block is not text or holds no braced span, or the
      JSON parser threw with its own message. */
  datatype BreakdownError = NoContent | Unparseable | JsonError(message: string)

  /** The error message the caller surfaces for each failure. */
  function ErrorMessage(e: BreakdownError): string {
    match e
    case NoContent => "Cannot read properties of undefined (reading 'type')"
    case Unparseable => ParseFailureMessage
    case JsonError(m) => m
  }

  /** The post-processing of `generateTaskBreakdown`, given the reply content
      and the JSON parser (which yields the `subtasks` list or throws). */
  function GenerateTaskBreakdown(
    content: seq<ContentBlock>,
    parseJson: string -> Result<seq<Subtask>, string>): (r: Result<seq<NumberedSubtask>, BreakdownError>)
    ensures |content| == 0 <==> r == Failure(NoContent)
    ensures r == Failure(Unparseable) <==>
      |content| > 0 && (content[0].OtherBlock? || ExtractJsonSpan(content[0].text).None?)
    ensures r.Success? ==>
      && content[0].TextBlock?
      && ExtractJsonSpan(content[0].text).Some?
      && var parsed := parseJson(ExtractJsonSpan(content[0].text).value);
      && parsed.Success?
      && r.value == NumberAndClamp(parsed.value)
    ensures r.Failure? && r.error.JsonError? ==>
      parseJson(ExtractJsonSpan(content[0].text).value) == Failure(r.error.message)
  {
    if |content| == 0 then Failure(NoContent)
    else match content[0]
      case OtherBlock(_) => Failure(Unparseable)
      case TextBlock(text) =>
        match ExtractJsonSpan(text)
        case None => Failure(Unparseable)
        case Some(span) =>
          match parseJson(span)
          case Failure(m) => Failure(JsonError(m))
          case Success(parsed) => Success(NumberAndClamp(parsed))
  }
}
