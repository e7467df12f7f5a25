/**
 * `format_recipe`: the prompt template chosen for the language, the
 * completion request, and the extraction of the formatted text from the
 * completion service's reply.
 *
 * The reply is a JSON value. Python evaluates the extraction step by step,
 * and some steps raise on unexpected shapes (`"message" in 5`, `.get` on a
 * list); every exception is caught by the function's own handler.
 */
module Completion {
  import opened Wrappers
  import opened Text

  // ---------------------------------------------------------------------
  // Prompt and request.
  // ---------------------------------------------------------------------

  /** `"Bengali" if language_option == "Bengali" else "English"`. */
  function FormatLanguage(option: string): (r: string)
    ensures r == "Bengali" <==> option == "Bengali"
    ensures r == "Bengali" || r == "English"
  {
    if option == "Bengali" then "Bengali" else "English"
  }

  /** The two prompt texts; their wording is not modelled. */
  datatype Template = BengaliTemplate | EnglishTemplate

  /** The prompt of `format_recipe`: the Bengali text for "Bengali", the English text for anything else. */
  function PromptTemplate(language: string): (t: Template)
    ensures t == BengaliTemplate <==> language == "Bengali"
  {
    if language == "Bengali" then BengaliTemplate else EnglishTemplate
  }

  /** The Bengali prompt is used exactly when the Bengali accent is selected. */
  lemma TemplateForOption(option: string)
    ensures PromptTemplate(FormatLanguage(option)) == BengaliTemplate <==> option == "Bengali"
    ensures option != "Bengali" ==> PromptTemplate(FormatLanguage(option)) == EnglishTemplate
  {
  }

  const TEMPERATURE: real := 0.7
  const MAX_TOKENS: nat := 800

  /** The arguments of the client and of `generate_completion`. */
  datatype CompletionRequest = CompletionRequest(
    template: Template, recipe: string, model: string, temperature: real, maxTokens: nat)

  function CompletionRequestFor(recipeText: string, language: string, model: string): (q: CompletionRequest)
    ensures q.recipe == recipeText && q.model == model
    ensures q.template == BengaliTemplate <==> language == "Bengali"
    ensures q.temperature == 0.7 && q.maxTokens == 800
  {
    CompletionRequest(PromptTemplate(language), recipeText, model, TEMPERATURE, MAX_TOKENS)
  }

  // ---------------------------------------------------------------------
  // Python's view of the reply.
  // ---------------------------------------------------------------------

  /** A decoded JSON value; `JNull` is also Python's `None`. */
  datatype Json =
    | JNull
    | JBool(b: bool)
    | JNum(n: int)
    | JStr(s: string)
    | JList(items: seq<Json>)
    | JDict(fields: map<string, Json>)

  /** The result of evaluating a Python expression that may raise. */
  datatype Eval<T> = Value(v: T) | Raised

  /** Python truthiness. */
  predicate JsonTruthy(j: Json)
  {
    match j
    case JNull => false
    case JBool(b) => b
    case JNum(n) => n != 0
    case JStr(s) => s != []
    case JList(xs) => xs != []
    case JDict(m) => m != map[]
  }

  /** `key` occurs as a contiguous part of `s`. */
  predicate HasInfix(key: string, s: string)
    decreases |s|
  {
    key <= s || (s != [] && HasInfix(key, s[1..]))
  }

  /** Python's `key in container`: raises for `None`, booleans and numbers. */
  function Contains(container: Json, key: string): (r: Eval<bool>)
    ensures r == Raised <==> !(container.JDict? || container.JList? || container.JStr?)
    ensures container.JDict? ==> r == Value(key in container.fields)
  {
    match container
    case JDict(m) => Value(key in m)
    case JList(xs) => Value(JStr(key) in xs)
    case JStr(s) => Value(HasInfix(key, s))
    case _ => Raised
  }

  /** Python's `value.get(key, default)`: only dictionaries have `get`. */
  function GetOr(value: Json, key: string, default: Json): (r: Eval<Json>)
    ensures r == Raised <==> !value.JDict?
    ensures value.JDict? && key in value.fields ==> r == Value(value.fields[key])
    ensures value.JDict? && key !in value.fields ==> r == Value(default)
  {
    if value.JDict? then Value(if key in value.fields then value.fields[key] else default)
    else Raised
  }

  /**
   * The value `response_text` ends up with, or `Raised` when one of the steps
   * raises.
   */
  function ResponseTextOf(response: Json): Eval<Json>
  {
    if !response.JDict? || "choices" !in response.fields then Value(JNull)
    else
      var choices := response.fields["choices"];
      if !JsonTruthy(choices) || !choices.JList? then Value(JNull)
      else
        var first := choices.items[0];
        match Contains(first, "message")
        case Raised => Raised
        case Value(found) =>
          if !found then Value(JNull)
          else
            match GetOr(first, "message", JDict(map[]))
            case Raised => Raised
            case Value(message) => GetOr(message, "content", JNull)
  }

  /**
   * The extraction's result: the stripped text when `response_text` is a
   * non-empty string, nothing otherwise (including when a step raised).
   */
  function ExtractText(response: Json): Option<string>
  {
    match ResponseTextOf(response)
    case Value(JStr(s)) => if s != [] then Some(Strip(s)) else None
    case _ => None
  }

  /**
   * Reference description of a usable reply: a dictionary whose "choices" is
   * a non-empty list whose first entry is a dictionary whose "message" is a
   * dictionary whose "content" is the non-empty string `content`.
   */
  predicate SuccessChain(response: Json, content: string)
  {
    && response.JDict? && "choices" in response.fields
    && var choices := response.fields["choices"];
    && choices.JList? && choices.items != []
    && var first := choices.items[0];
    && first.JDict? && "message" in first.fields
    && var message := first.fields["message"];
    && message.JDict? && "content" in message.fields
    && message.fields["content"] == JStr(content) && content != []
  }

  /** Text is extracted exactly along the success chain, and it is the stripped content. */
  lemma ExtractTextIsChain(response: Json)
    ensures ExtractText(response).Some? <==> exists c :: SuccessChain(response, c)
    ensures forall c :: SuccessChain(response, c) ==> ExtractText(response) == Some(Strip(c))
  {
    if ExtractText(response).Some? {
      var choices := response.fields["choices"];
      var message := choices.items[0].fields["message"];
      assert SuccessChain(response, message.fields["content"].s);
    }
  }

  /** Content made only of whitespace is truthy, so it passes and strips to the empty string. */
  lemma BlankContentExtracted(response: Json, content: string)
    requires SuccessChain(response, content) && AllSpace(content)
    ensures ExtractText(response) == Some([])
  {
    ExtractTextIsChain(response);
  }

  /** A first choice that is `None`, a boolean or a number makes `"message" in choices[0]` raise. */
  lemma ScalarChoiceRaises(response: Json)
    requires response.JDict? && "choices" in response.fields
    requires response.fields["choices"].JList? && response.fields["choices"].items != []
    requires var first := response.fields["choices"].items[0];
      first.JNull? || first.JBool? || first.JNum?
    ensures ResponseTextOf(response) == Raised
    ensures ExtractText(response).None?
  {
  }

  /** A first choice that is a string or list mentioning "message" passes the membership test, then `.get` raises. */
  lemma NonDictChoiceRaises(response: Json)
    requires response.JDict? && "choices" in response.fields
    requires response.fields["choices"].JList? && response.fields["choices"].items != []
    requires var first := response.fields["choices"].items[0];
      (first.JStr? && HasInfix("message", first.s)) || (first.JList? && JStr("message") in first.items)
    ensures ResponseTextOf(response) == Raised
  {
  }

  /**
   * `format_recipe`. `apiKey` is the configured key; `reply` is what the
   * completion service returned for the request, or None when creating the
   * client or the call raised.
   */
  function FormatRecipe(apiKey: Option<string>, reply: Option<Json>): (r: Option<string>)
    ensures !Truthy(apiKey) || reply.None? ==> r.None?
    ensures Truthy(apiKey) && reply.Some? ==> r == ExtractText(reply.value)
    ensures r.Some? ==> exists c :: SuccessChain(reply.value, c) && r.value == Strip(c)
  {
    if !Truthy(apiKey) then None
    else match reply
      case None => None
      case Some(response) =>
        ExtractTextIsChain(response);
        ExtractText(response)
  }
}
