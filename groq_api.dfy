/**
 * GroqAPI: the offline "AI-like" phrase generator that turns a detected object's
 * name into a conversational prompt, and the API-key check run when the
 * component wakes up.
 *
 * `Math.random()` is an argument `r` in [0, 1): the model says which phrase each
 * draw selects and that the selected index is always in bounds, and nothing
 * about how often each phrase is drawn.
 */
module GroqApi {
  import opened Wrappers
  import opened Text

  /** A value `Math.random()` can return. */
  type Unit = r: real | 0.0 <= r < 1.0

  /** The placeholder key shipped in the configuration template. */
  const PlaceholderKey: string := "your-groq-api-key-here"

  /** The marker every generated prompt starts with. */
  const AILikePrefix: string := "🤖 AI-like: "

  /** What the callback receives for a missing or blank object name: "Error: No object detected". */
  const NoObjectError: string := "Error: " + NoObjectText
  const NoObjectText: string := "No object detected"

  /** `Math.floor(r * n)`: the index a random draw selects from a list of `n` entries. */
  function RandomIndex(r: Unit, n: nat): (i: nat)
    requires n > 0
    ensures i < n
  {
    assert r * n as real < n as real;
    (r * n as real).Floor
  }

  /**
   * The five canned phrases per known object. The longer phrases are written
   * as two literals joined with `+` so that the verifier can read their first
   * character.
   */
  const TvPhrases: seq<string> := [
    "I wonder what's on tonight?",
    "That screen looks perfect " + "for movie nights!",
    "Streaming or cable these days?",
    "The picture quality looks " + "great from here!",
    "Binge-watching anything " + "interesting lately?"]
  const TelevisionPhrases: seq<string> := [
    "What's your current show " + "obsession?",
    "That's a nice setup for " + "entertainment!",
    "Sports or series kind of person?",
    "The viewing angle looks perfect!",
    "Smart TV features are " + "amazing these days!"]
  const StreetPhrases: seq<string> := [
    "This neighborhood has such " + "character!",
    "I bet this gets lively " + "during festivals!",
    "The architecture here tells " + "a story!",
    "Perfect for evening " + "strolls, I imagine!",
    "This area must have great " + "local spots!"]
  const RoadPhrases: seq<string> := [
    "This path must lead " + "somewhere interesting!",
    "The way the light hits this " + "road is beautiful!",
    "I wonder what stories this " + "road could tell!",
    "Perfect for a peaceful drive!",
    "This looks like a route " + "with great views!"]
  const CarPhrases: seq<string> := [
    "That's a beautiful machine!",
    "The design really catches " + "the eye!",
    "I bet that's fun to drive!",
    "The color choice is perfect!",
    "That looks like it has some " + "serious power!"]
  const PlantPhrases: seq<string> := [
    "Nature's artwork right there!",
    "That's thriving beautifully!",
    "The way plants bring life " + "to a space is amazing!",
    "Someone has a real green thumb!",
    "The natural beauty is so calming!"]
  const BookPhrases: seq<string> := [
    "There's nothing quite like " + "a good book!",
    "I wonder what world that " + "one opens up!",
    "The best adventures start " + "with turning a page!",
    "Books are like portable " + "magic, aren't they?",
    "That looks like it could be " + "a real page-turner!"]
  const LaptopPhrases: seq<string> := [
    "The gateway to endless " + "possibilities!",
    "I wonder what amazing " + "things are being created on that!",
    "Technology that fits your " + "lifestyle perfectly!",
    "That looks like a " + "productivity powerhouse!",
    "The modern workspace in " + "portable form!"]
  const PhonePhrases: seq<string> := [
    "Your connection to the " + "whole world!",
    "The technology in our " + "pockets is incredible!",
    "That's probably got some " + "amazing photos on it!",
    "Communication evolution in " + "your hand!",
    "The way these devices shape " + "our daily lives is fascinating!"]
  const RecordPlayerPhrases: seq<string> := [
    "There's something magical " + "about analog sound!",
    "Music the way it was meant " + "to be experienced!",
    "That's a beautiful piece of " + "audio history!",
    "The ritual of playing vinyl " + "is so satisfying!",
    "Nothing beats that warm, " + "rich sound!"]
  const SpeakerPhrases: seq<string> := [
    "Ready to fill the space " + "with amazing sound!",
    "Music becomes an experience " + "with good speakers!",
    "The engineering in modern " + "audio is incredible!",
    "That's going to make " + "everything sound amazing!",
    "Perfect for bringing music " + "to life!"]

  /** The canned phrases keyed by lower-case object name. */
  const ContextualResponses: map<string, seq<string>> := map[
    "tv" := TvPhrases,
    "television" := TelevisionPhrases,
    "street" := StreetPhrases,
    "road" := RoadPhrases,
    "car" := CarPhrases,
    "plant" := PlantPhrases,
    "book" := BookPhrases,
    "laptop" := LaptopPhrases,
    "phone" := PhonePhrases,
    "record player" := RecordPlayerPhrases,
    "speaker" := SpeakerPhrases
  ]

  /** The seven templates used for a name the table does not know. */
  function GenericResponses(objectName: string): seq<string> {
    [ "That " + objectName + " has such interesting character!",
      "I find the design of that " + objectName + " quite fascinating!",
      "There's something special about how that " + objectName + " fits in this space!",
      "The way that " + objectName + " catches the light is beautiful!",
      "That " + objectName + " tells its own unique story!",
      "I wonder about the story behind that " + objectName + "!",
      "The craftsmanship of that " + objectName + " is impressive!" ]
  }

  /** Each of the seven templates quotes the object name verbatim and starts with a letter. */
  lemma {:induction false} GenericResponsesNameIt(objectName: string)
    ensures |GenericResponses(objectName)| == 7
    ensures forall p :: p in GenericResponses(objectName) ==>
              Includes(p, objectName) && p != [] && !IsWhitespace(p[0])
  {
    var g := GenericResponses(objectName);
    GenericResponsesStartVisibly(objectName);
    forall p | p in g
      ensures p != [] && !IsWhitespace(p[0])
    {
      assert !IsWhitespace('T') && !IsWhitespace('I');
    }
    IncludesMiddle("That ", objectName, " has such interesting character!");
    IncludesMiddle("I find the design of that ", objectName, " quite fascinating!");
    IncludesMiddle("There's something special about how that ", objectName, " fits in this space!");
    IncludesMiddle("The way that ", objectName, " catches the light is beautiful!");
    IncludesMiddle("That ", objectName, " tells its own unique story!");
    IncludesMiddle("I wonder about the story behind that ", objectName, "!");
    IncludesMiddle("The craftsmanship of that ", objectName, " is impressive!");
  }

  /** Every template starts with the letter 'T' or 'I'. */
  lemma GenericResponsesStartVisibly(objectName: string)
    ensures forall p :: p in GenericResponses(objectName) ==> p != [] && (p[0] == 'T' || p[0] == 'I')
  {
    var g := GenericResponses(objectName);
    assert g[0][0] == 'T' && g[1][0] == 'I' && g[2][0] == 'T' && g[3][0] == 'T';
    assert g[4][0] == 'T' && g[5][0] == 'I' && g[6][0] == 'T';
  }

  predicate StartsVisibly(phrase: string) {
    phrase != [] && !IsWhitespace(phrase[0])
  }

  /** A list of five phrases, none empty and none starting with white space. */
  predicate PhraseList(phrases: seq<string>) {
    |phrases| == 5 && forall p :: p in phrases ==> StartsVisibly(p)
  }

  lemma FiveVisible(phrases: seq<string>)
    requires |phrases| == 5
    requires StartsVisibly(phrases[0]) && StartsVisibly(phrases[1]) && StartsVisibly(phrases[2])
    requires StartsVisibly(phrases[3]) && StartsVisibly(phrases[4])
    ensures PhraseList(phrases)
  {
  }

  /** The lists for screens and streets. */
  lemma ScreenAndStreetPhrasesVisible()
    ensures PhraseList(TvPhrases) && PhraseList(TelevisionPhrases)
    ensures PhraseList(StreetPhrases) && PhraseList(RoadPhrases)
  {
    FiveVisible(TvPhrases);
    FiveVisible(TelevisionPhrases);
    FiveVisible(StreetPhrases);
    FiveVisible(RoadPhrases);
  }

  /** The lists for cars, plants, books and laptops. */
  lemma EverydayPhrasesVisible()
    ensures PhraseList(CarPhrases) && PhraseList(PlantPhrases)
    ensures PhraseList(BookPhrases) && PhraseList(LaptopPhrases)
  {
    FiveVisible(CarPhrases);
    FiveVisible(PlantPhrases);
    FiveVisible(BookPhrases);
    FiveVisible(LaptopPhrases);
  }

  /** The lists for phones and audio. */
  lemma DevicePhrasesVisible()
    ensures PhraseList(PhonePhrases) && PhraseList(RecordPlayerPhrases) && PhraseList(SpeakerPhrases)
  {
    FiveVisible(PhonePhrases);
    FiveVisible(RecordPlayerPhrases);
    FiveVisible(SpeakerPhrases);
  }

  /** Every table entry is such a list. */
  lemma ContextualResponsesWellFormed(key: string)
    requires key in ContextualResponses
    ensures PhraseList(ContextualResponses[key])
  {
    ScreenAndStreetPhrasesVisible();
    EverydayPhrasesVisible();
    DevicePhrasesVisible();
  }

  /**
   * `generateAILikePrompt`: the phrase for `objectName` when the draw is `r`.
   * A name whose lower-case form is a table key draws from that key's list;
   * any other name draws from the generic templates, each of which quotes the
   * name verbatim. (The lookup is into the table's own keys; see the as-written
   * variant below for what the source's object-literal lookup does.)
   */
  function GenerateAILikePrompt(objectName: string, r: Unit): (phrase: string)
    ensures Lower(objectName) in ContextualResponses ==>
              phrase in ContextualResponses[Lower(objectName)]
    ensures Lower(objectName) !in ContextualResponses ==>
              phrase in GenericResponses(objectName) && Includes(phrase, objectName)
    ensures phrase != [] && !IsWhitespace(phrase[0])
  {
    var key := Lower(objectName);
    if key in ContextualResponses then
      ContextualResponsesWellFormed(key);
      var responses := ContextualResponses[key];
      responses[RandomIndex(r, |responses|)]
    else
      var generic := GenericResponses(objectName);
      GenericResponsesNameIt(objectName);
      generic[RandomIndex(r, |generic|)]
  }

  /**
   * `generateConversationalPrompt`: the one string the callback receives.
   * A missing or blank name yields the error text; otherwise the marker
   * followed by the generated phrase. No step of the `try` block can throw for
   * a string argument, so the `catch` branch is not reachable in this model.
   */
  function GenerateConversationalPrompt(objectName: string, r: Unit): (prompt: string)
    ensures IsBlank(objectName) ==> prompt == NoObjectError
    ensures !IsBlank(objectName) ==>
              && |prompt| > |AILikePrefix|
              && prompt[..|AILikePrefix|] == AILikePrefix
              && prompt[|AILikePrefix|..] == GenerateAILikePrompt(objectName, r)
  {
    if IsBlank(objectName) then NoObjectError
    else AILikePrefix + GenerateAILikePrompt(objectName, r)
  }

  /** A name made of Unicode space separators only, such as the ideographic space, is blank for `trim` and gets the error text. */
  lemma UnicodeSpaceGetsError(r: Unit)
    ensures GenerateConversationalPrompt("\U{3000}", r) == NoObjectError
    ensures GenerateConversationalPrompt("\U{2003}\U{1680}", r) == NoObjectError
  {
  }

  /** The table is keyed by lower-case name, so "Book", "BOOK" and "book" draw the same phrase. */
  lemma {:induction false} LookupIgnoresCase(a: string, b: string, r: Unit)
    requires Lower(a) == Lower(b) && Lower(a) in ContextualResponses
    ensures GenerateAILikePrompt(a, r) == GenerateAILikePrompt(b, r)
    ensures GenerateAILikePrompt(a, r) in ContextualResponses[Lower(a)]
  {
  }

  lemma BookInAnyCase(r: Unit)
    ensures GenerateAILikePrompt("Book", r) == GenerateAILikePrompt("BOOK", r) == GenerateAILikePrompt("book", r)
    ensures GenerateAILikePrompt("Book", r) in ContextualResponses["book"]
  {
    assert Lower("Book") == "book" && Lower("BOOK") == "book" && Lower("book") == "book";
    LookupIgnoresCase("Book", "book", r);
    LookupIgnoresCase("BOOK", "book", r);
  }

  /** `loadApiKey`: `ENV_CONFIG.GROQ_API_KEY || ""`. */
  function LoadedKey(configKey: Option<string>): string {
    match configKey
    case Some(k) => k
    case None => ""
  }

  /** The key counts as configured iff it is non-empty and is not the template's placeholder. */
  predicate KeyConfigured(apiKey: string) {
    apiKey != "" && apiKey != PlaceholderKey
  }

  /** `shouldUseMockResponse`: the mock generator is always used, whatever the key. */
  function ShouldUseMockResponse(): (useMock: bool)
    ensures useMock
  {
    true
  }

  /** The component's one piece of state, the API key, assigned when it wakes up. */
  class GroqApiComponent {
    var apiKey: string

    constructor ()
      ensures apiKey == ""
    {
      apiKey := "";
    }

    /**
     * `loadApiKey`: stores the configured key (the empty string when the
     * configuration has none) and reports whether it is usable, which the
     * source only logs.
     */
    method LoadApiKey(configKey: Option<string>) returns (configured: bool)
      modifies this
      ensures apiKey == LoadedKey(configKey)
      ensures configured <==> configKey.Some? && configKey.value != "" && configKey.value != PlaceholderKey
    {
      apiKey := LoadedKey(configKey);
      configured := KeyConfigured(apiKey);
    }
  }

  // ---------------------------------------------------------------------------
  // The lookup as written: `contextualResponses[objectName.toLowerCase()]` on a
  // plain object literal also finds the members every object inherits. Of
  // those, the two whose names are all lower case are `constructor` (the
  // `Object` function, length 1) and `__proto__` (the prototype object, no
  // length). Both are truthy, so the branch is taken and indexing them yields
  // `undefined`, which the template literal in the caller renders as
  // "undefined".

  /** Inherited member names a lower-cased object name can hit. */
  const InheritedMembers: set<string> := {"constructor", "__proto__"}

  function GenerateAILikePromptAsWritten(objectName: string, r: Unit): (phrase: string)
    ensures Lower(objectName) !in InheritedMembers ==> phrase == GenerateAILikePrompt(objectName, r)
  {
    var key := Lower(objectName);
    if key in ContextualResponses then GenerateAILikePrompt(objectName, r)
    else if key in InheritedMembers then "undefined"
    else GenerateAILikePrompt(objectName, r)
  }

  /** A detected "Constructor" gets the phrase "undefined", which is neither a table phrase nor a template. */
  lemma ConstructorAsWritten(r: Unit)
    ensures GenerateAILikePromptAsWritten("Constructor", r) == "undefined"
    ensures GenerateAILikePromptAsWritten("Constructor", r) !in GenericResponses("Constructor")
    ensures !Includes(GenerateAILikePromptAsWritten("Constructor", r), "Constructor")
  {
    assert Lower("Constructor") == "constructor";
    assert "constructor" !in ContextualResponses;
    assert !Includes("undefined", "Constructor");
    GenericResponsesNameIt("Constructor");
  }

  /** With the lookup restricted to the table's own keys, "Constructor" gets a template that names it. */
  lemma ConstructorCorrected(r: Unit)
    ensures GenerateAILikePrompt("Constructor", r) in GenericResponses("Constructor")
    ensures Includes(GenerateAILikePrompt("Constructor", r), "Constructor")
  {
    assert Lower("Constructor") == "constructor";
    assert "constructor" !in ContextualResponses;
  }
}
