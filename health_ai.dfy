/**
  The dialogue controller: a first-match classifier that answers some messages
  locally, and a chat object whose transcript and "typing" flag each turn
  updates, sending everything else to the medical-info service.
*/
module HealthAI {
  import opened Wrappers
  import opened JsText
  import opened MedicalInfoService

  /**
    The constants the controller imports from its shared types module (not part
    of this model): the wellness advice list, the fallback reply, the emergency
    keywords and the emergency reply.
  */
  datatype Config = Config(
    wellnessAdvice: seq<string>,
    defaultResponse: string,
    emergencyKeywords: seq<string>,
    emergencyMessage: string)

  /** The advice list is indexed up to 5 by the topical branches. */
  predicate ValidConfig(config: Config) {
    |config.wellnessAdvice| >= 6
  }

  const DirectoryTrigger := "DIRECTORY_TRIGGER"
  const DirectoryPhrases := ["all disease", "list of disease", "every disease"]
  const AdviceWords := ["wellness", "advice", "tip"]
  const GreetingWords := ["hello", "hi"]
  const GreetingReply := "Hello! I can provide info about symptoms, diseases, medications, or wellness tips. What would you like to know?"
  const WelcomeText := "Hello! I'm your Google-powered Health Assistant. I can provide detailed medical reports (Symptoms, Medication, Precautions) for almost any disease in the world. Just name a condition or describe your symptoms!"
  const DirectoryIntro := "I've organized my medical database into a few key categories for you:"
  const ConnectivityTrouble := "I'm having trouble connecting to my medical database. "
  const InsightsFailure := "Sorry, I couldn't fetch that information right now."

  /** The summary the card test rejects; the service never produces this exact text (it writes `FetchingSummary`). */
  const CardlessSummary := "Fetching global health overview..."

  datatype Category = Category(name: string, diseases: seq<string>)
  datatype Directory = Directory(title: string, description: string, categories: seq<Category>)

  const DiseaseDirectory := Directory(
    "Global Disease Directory",
    "I have access to a global medical database. Here is a categorized overview of major health conditions you can explore:",
    [
      Category("Infectious Diseases",
        ["COVID-19", "Influenza", "Tuberculosis", "Malaria", "Dengue", "Cholera", "Typhoid", "Measles", "Ebola", "Zika"]),
      Category("Chronic & Metabolic",
        ["Diabetes", "Hypertension", "Heart Disease", "Stroke", "Asthma", "COPD", "Obesity"]),
      Category("Neurological & Mental",
        ["Alzheimer's", "Parkinson's", "Migraine", "Epilepsy", "Depression", "Anxiety", "Bipolar Disorder"]),
      Category("Other Major Categories",
        ["Cancer", "Leukemia", "Lupus", "Arthritis", "Anemia", "Pneumonia", "Polio"])
    ])

  datatype Sender = User | Bot

  /** A transcript entry; ids and timestamps are not modelled. */
  datatype Message = Message(text: string, sender: Sender, medicalData: Option<MedicalInfo>, diseaseDirectory: Option<Directory>)

  function BotText(text: string): Message {
    Message(text, Bot, None, None)
  }

  /** Some word of `words` occurs in `lowerInput`. */
  predicate MentionsWord(lowerInput: string, words: seq<string>) {
    exists j :: 0 <= j < |words| && Contains(lowerInput, words[j])
  }

  /** The wellness topics in the order they are tried, and the advice entry each one gives. */
  const Topics: seq<seq<string>> := [["diet", "food"], ["sleep"], ["hydrat", "water"], ["stress", "mindful"], ["check-up", "screening"]]
  const TopicAdviceIndex: seq<nat> := [0, 1, 2, 3, 5]

  /** The topical branches: the advice index of the first topic the input mentions. */
  function TopicalAdvice(lowerInput: string): (r: Option<nat>)
    ensures r.Some? ==> r.value in TopicAdviceIndex && r.value != 4
  {
    if Contains(lowerInput, "diet") || Contains(lowerInput, "food") then Some(0)
    else if Contains(lowerInput, "sleep") then Some(1)
    else if Contains(lowerInput, "hydrat") || Contains(lowerInput, "water") then Some(2)
    else if Contains(lowerInput, "stress") || Contains(lowerInput, "mindful") then Some(3)
    else if Contains(lowerInput, "check-up") || Contains(lowerInput, "screening") then Some(5)
    else None
  }

  /** The if-chain agrees with a first-match scan of the topic table. */
  lemma TopicalAdviceIsFirstTopic(lowerInput: string, t: nat)
    requires t < |Topics|
    ensures TopicalAdvice(lowerInput) == Some(TopicAdviceIndex[t]) <==>
      MentionsWord(lowerInput, Topics[t]) && forall u | 0 <= u < t :: !MentionsWord(lowerInput, Topics[u])
    ensures TopicalAdvice(lowerInput).None? <==> forall u | 0 <= u < |Topics| :: !MentionsWord(lowerInput, Topics[u])
  {
    assert Topics[0][0] == "diet" && Topics[0][1] == "food";
    assert Topics[1][0] == "sleep";
    assert Topics[2][0] == "hydrat" && Topics[2][1] == "water";
    assert Topics[3][0] == "stress" && Topics[3][1] == "mindful";
    assert Topics[4][0] == "check-up" && Topics[4][1] == "screening";
  }

  /**
    `generateLocalResponse`: directory phrases, then emergency keywords, then
    the wellness topics, then generic advice (entry `draw`, the random pick),
    then a greeting; `None` sends the message to the medical-info service.
  */
  function GenerateLocalResponse(input: string, config: Config, draw: nat): (r: Option<string>)
    requires ValidConfig(config) && draw < |config.wellnessAdvice|
    ensures MentionsWord(ToLower(input), DirectoryPhrases) ==> r == Some(DirectoryTrigger)
    ensures !MentionsWord(ToLower(input), DirectoryPhrases) && MentionsWord(ToLower(input), config.emergencyKeywords) ==>
      r == Some(config.emergencyMessage)
    ensures (&& !MentionsWord(ToLower(input), DirectoryPhrases)
             && !MentionsWord(ToLower(input), config.emergencyKeywords)
             && TopicalAdvice(ToLower(input)).Some?) ==>
      r == Some(config.wellnessAdvice[TopicalAdvice(ToLower(input)).value])
    ensures (&& !MentionsWord(ToLower(input), DirectoryPhrases)
             && !MentionsWord(ToLower(input), config.emergencyKeywords)
             && TopicalAdvice(ToLower(input)).None?
             && MentionsWord(ToLower(input), AdviceWords)) ==>
      r == Some(config.wellnessAdvice[draw])
    ensures r.Some? ==>
      r.value == DirectoryTrigger || r.value == config.emergencyMessage || r.value == GreetingReply || r.value in config.wellnessAdvice
    ensures r.None? <==>
      && !MentionsWord(ToLower(input), DirectoryPhrases)
      && !MentionsWord(ToLower(input), config.emergencyKeywords)
      && TopicalAdvice(ToLower(input)).None?
      && !MentionsWord(ToLower(input), AdviceWords)
      && !MentionsWord(ToLower(input), GreetingWords)
  {
    var lowerInput := ToLower(input);
    if MentionsWord(lowerInput, DirectoryPhrases) then
      Some(DirectoryTrigger)
    else if MentionsWord(lowerInput, config.emergencyKeywords) then
      Some(config.emergencyMessage)
    else if TopicalAdvice(lowerInput).Some? then
      Some(config.wellnessAdvice[TopicalAdvice(lowerInput).value])
    else if MentionsWord(lowerInput, AdviceWords) then
      Some(config.wellnessAdvice[draw])
    else if MentionsWord(lowerInput, GreetingWords) then
      Some(GreetingReply)
    else
      None
  }

  /** Every word of `words` holds a character, `missing[j]` for word `j`, that `s` lacks: none of them occurs. */
  lemma NoWordMentioned(s: string, words: seq<string>, missing: string)
    requires |missing| == |words|
    requires forall j :: 0 <= j < |words| ==> missing[j] in words[j] && missing[j] !in s
    ensures !MentionsWord(s, words)
  {
    forall j | 0 <= j < |words|
      ensures !Contains(s, words[j])
    {
      NotContains(s, words[j]);
    }
  }

  /** A request for the directory is answered with the directory whatever text surrounds it. */
  lemma {:induction false} DirectoryRequestSurvivesAppending(u: string, w: string, config: Config, draw: nat)
    requires ValidConfig(config) && draw < |config.wellnessAdvice|
    requires MentionsWord(ToLower(u), DirectoryPhrases)
    ensures GenerateLocalResponse(u + w, config, draw) == Some(DirectoryTrigger)
    ensures GenerateLocalResponse(w + u, config, draw) == Some(DirectoryTrigger)
  {
    var j :| 0 <= j < |DirectoryPhrases| && Contains(ToLower(u), DirectoryPhrases[j]);
    ToLowerAppend(u, w);
    ToLowerAppend(w, u);
    ContainsInAppend(ToLower(u), ToLower(w), DirectoryPhrases[j]);
  }

  /**
    An emergency keyword is answered with the emergency message whatever text
    is added before or after it, as long as no directory phrase appears.
  */
  lemma {:induction false} EmergencySurvivesAppending(u: string, w: string, config: Config, draw: nat)
    requires ValidConfig(config) && draw < |config.wellnessAdvice|
    requires MentionsWord(ToLower(u), config.emergencyKeywords)
    ensures !MentionsWord(ToLower(u + w), DirectoryPhrases) ==>
      GenerateLocalResponse(u + w, config, draw) == Some(config.emergencyMessage)
    ensures !MentionsWord(ToLower(w + u), DirectoryPhrases) ==>
      GenerateLocalResponse(w + u, config, draw) == Some(config.emergencyMessage)
  {
    var j :| 0 <= j < |config.emergencyKeywords| && Contains(ToLower(u), config.emergencyKeywords[j]);
    ToLowerAppend(u, w);
    ToLowerAppend(w, u);
    ContainsInAppend(ToLower(u), ToLower(w), config.emergencyKeywords[j]);
  }

  /** "what is the best diet" is answered by the diet advice, before the generic branch is reached. */
  lemma DietQuestion(input: string, config: Config, draw: nat)
    requires input == "what is the best diet"
    requires ValidConfig(config) && draw < |config.wellnessAdvice|
    requires !MentionsWord(input, config.emergencyKeywords)
    ensures GenerateLocalResponse(input, config, draw) == Some(config.wellnessAdvice[0])
  {
    assert ToLower(input) == input;
    NoWordMentioned(input, DirectoryPhrases, "llv");
    ContainsFromOccurrence(input, "diet", 17);
  }

  /** Without the letters d, w and t (as in "i have chills"), a message holds no directory phrase and no advice word. */
  lemma ChillsAsksNoAdvice(lower: string)
    requires 'd' !in lower && 'w' !in lower && 't' !in lower
    ensures !MentionsWord(lower, DirectoryPhrases)
    ensures !MentionsWord(lower, AdviceWords)
  {
    NoWordMentioned(lower, DirectoryPhrases, "ddd");
    NoWordMentioned(lower, AdviceWords, "wdt");
  }

  /** Without the letters d, f, p, y, w, t, m, k and r (as in "i have chills"), a message names no wellness topic. */
  lemma ChillsNamesNoTopic(lower: string)
    requires 'd' !in lower && 'f' !in lower && 'p' !in lower && 'y' !in lower && 'w' !in lower
    requires 't' !in lower && 'm' !in lower && 'k' !in lower && 'r' !in lower
    ensures TopicalAdvice(lower).None?
  {
    NotContainsChar(lower, "diet", 'd');
    NotContainsChar(lower, "food", 'f');
    NotContainsChar(lower, "sleep", 'p');
    NotContainsChar(lower, "hydrat", 'y');
    NotContainsChar(lower, "water", 'w');
    NotContainsChar(lower, "stress", 't');
    NotContainsChar(lower, "mindful", 'm');
    NotContainsChar(lower, "check-up", 'k');
    NotContainsChar(lower, "screening", 'r');
  }

  /** A message with "hi" at position 8 (inside "chills" in "i have chills") holds a greeting word. */
  lemma ChillsSaysHi(lower: string)
    requires |lower| >= 10 && lower[8] == 'h' && lower[9] == 'i'
    ensures MentionsWord(lower, GreetingWords)
  {
    assert lower[8..10] == "hi";
    ContainsFromOccurrence(lower, "hi", 8);
    assert GreetingWords[1] == "hi";
  }

  /** "I have chills" gets the greeting: "hi" occurs inside "chills". */
  lemma ChillsGetGreeting(input: string, config: Config, draw: nat)
    requires input == "I have chills"
    requires ValidConfig(config) && draw < |config.wellnessAdvice|
    requires !MentionsWord(ToLower(input), config.emergencyKeywords)
    ensures GenerateLocalResponse(input, config, draw) == Some(GreetingReply)
  {
    LowerChills(input);
    ChillsLetters(ToLower(input));
    ChillsAsksNoAdvice(ToLower(input));
    ChillsNamesNoTopic(ToLower(input));
    ChillsSaysHi(ToLower(input));
    GreetingWhenOnlyGreeted(input, config, draw);
  }

  /** Letters that "i have chills" lacks, and where its "hi" is. */
  lemma ChillsLetters(lower: string)
    requires lower == "i have chills"
    ensures 'd' !in lower && 'f' !in lower && 'p' !in lower
    ensures 'y' !in lower && 'w' !in lower && 't' !in lower
    ensures 'm' !in lower && 'k' !in lower && 'r' !in lower
    ensures |lower| >= 10 && lower[8] == 'h' && lower[9] == 'i'
  {
  }

  lemma LowerChills(input: string)
    requires input == "I have chills"
    ensures ToLower(input) == "i have chills"
  {
  }

  /** A message whose only trigger is a greeting word gets the greeting. */
  lemma GreetingWhenOnlyGreeted(input: string, config: Config, draw: nat)
    requires ValidConfig(config) && draw < |config.wellnessAdvice|
    requires !MentionsWord(ToLower(input), DirectoryPhrases) && !MentionsWord(ToLower(input), config.emergencyKeywords)
    requires TopicalAdvice(ToLower(input)).None? && !MentionsWord(ToLower(input), AdviceWords)
    requires MentionsWord(ToLower(input), GreetingWords)
    ensures GenerateLocalResponse(input, config, draw) == Some(GreetingReply)
  {
  }

  /** The card test: a summary worth showing as a clinical overview. */
  predicate ShowsCard(summary: string) {
    summary != "" && summary != CardlessSummary && !Contains(summary, NoMatchMarker)
  }

  /** A local response is used only when it is a non-empty string. */
  predicate AnswersLocally(localResponse: Option<string>) {
    localResponse.Some? && localResponse.value != ""
  }

  /**
    The bot message that follows a non-blank `text` (`draw` is the random advice
    pick): a local answer when there is one, the directory on its trigger, and
    otherwise a clinical card, the fallback reply, or the connectivity line when
    the assembly throws.
  */
  function BotReply(text: string, config: Config, net: Responses, draw: nat): (m: Message)
    requires ValidConfig(config) && draw < |config.wellnessAdvice|
    ensures m.sender == Bot
    ensures var local := GenerateLocalResponse(text, config, draw);
      AnswersLocally(local) ==>
        m == (if local.value == DirectoryTrigger then Message(DirectoryIntro, Bot, None, Some(DiseaseDirectory)) else BotText(local.value))
    ensures m.diseaseDirectory.Some? ==>
      m.diseaseDirectory == Some(DiseaseDirectory) && m.medicalData.None?
      && GenerateLocalResponse(text, config, draw) == Some(DirectoryTrigger)
    ensures m.medicalData.Some? ==>
      && !AnswersLocally(GenerateLocalResponse(text, config, draw))
      && Assemble(text, net) == Success(m.medicalData.value)
      && ShowsCard(m.medicalData.value.summary)
      && m.text == "Here is the clinical overview for " + m.medicalData.value.title + ":"
  {
    var localResponse := GenerateLocalResponse(text, config, draw);
    if AnswersLocally(localResponse) then
      if localResponse.value == DirectoryTrigger then Message(DirectoryIntro, Bot, None, Some(DiseaseDirectory))
      else BotText(localResponse.value)
    else
      match Assemble(text, net)
      case Failure(_) => BotText(ConnectivityTrouble + config.defaultResponse)
      case Success(data) =>
        if ShowsCard(data.summary) then Message("Here is the clinical overview for " + data.title + ":", Bot, Some(data), None)
        else BotText(config.defaultResponse)
  }

  /** A directory request is answered with the full disease directory, whatever the encyclopedia says. */
  lemma DirectoryRequestGetsDirectory(text: string, config: Config, net: Responses, draw: nat)
    requires ValidConfig(config) && draw < |config.wellnessAdvice|
    requires MentionsWord(ToLower(text), DirectoryPhrases)
    ensures BotReply(text, config, net, draw) == Message(DirectoryIntro, Bot, None, Some(DiseaseDirectory))
  {
  }

  /**
    A message with an emergency keyword and no directory phrase is answered with
    the emergency message verbatim (when that message is a non-empty text other
    than the directory trigger).
  */
  lemma EmergencyGetsEmergencyMessage(text: string, config: Config, net: Responses, draw: nat)
    requires ValidConfig(config) && draw < |config.wellnessAdvice|
    requires config.emergencyMessage != "" && config.emergencyMessage != DirectoryTrigger
    requires MentionsWord(ToLower(text), config.emergencyKeywords) && !MentionsWord(ToLower(text), DirectoryPhrases)
    ensures BotReply(text, config, net, draw) == BotText(config.emergencyMessage)
  {
  }

  /** The no-match record's summary carries the marker, so the card test rejects it. */
  lemma PlaceholderNotShown(summary: string)
    requires summary == NoMatchSummary
    ensures !ShowsCard(summary)
  {
    var before, after := "I'm searching my global records, but I ", ". Please try a common disease name.";
    assert summary == before + NoMatchMarker + after;
    assert summary == before + (NoMatchMarker + after);
    assert Contains(NoMatchMarker, NoMatchMarker);
    ContainsInAppend(NoMatchMarker, after, NoMatchMarker);
    ContainsInAppend(NoMatchMarker + after, before, NoMatchMarker);
  }

  /** The summary of a curated record without encyclopedia text passes the card test. */
  lemma FetchingSummaryShown(summary: string)
    requires summary == FetchingSummary
    ensures ShowsCard(summary)
  {
    NotContains(summary, NoMatchMarker);
  }

  /** A local answer does not depend on anything the encyclopedia says. */
  lemma LocalAnswerIgnoresNetwork(text: string, config: Config, net1: Responses, net2: Responses, draw: nat)
    requires ValidConfig(config) && draw < |config.wellnessAdvice|
    requires AnswersLocally(GenerateLocalResponse(text, config, draw))
    ensures BotReply(text, config, net1, draw) == BotReply(text, config, net2, draw)
    ensures BotReply(text, config, net1, draw).medicalData.None?
  {
  }

  /**
    On the assembly path the reply carries the record exactly when the assembly
    succeeds with a showable summary; otherwise it is the fallback reply, prefixed
    by the connectivity line when the assembly throws.
  */
  lemma CardIffShowable(text: string, config: Config, net: Responses, draw: nat)
    requires ValidConfig(config) && draw < |config.wellnessAdvice|
    requires !AnswersLocally(GenerateLocalResponse(text, config, draw))
    ensures BotReply(text, config, net, draw).medicalData.Some? <==>
      Assemble(text, net).Success? && ShowsCard(Assemble(text, net).value.summary)
    ensures BotReply(text, config, net, draw).diseaseDirectory.None?
    ensures Assemble(text, net).Failure? ==>
      BotReply(text, config, net, draw) == BotText(ConnectivityTrouble + config.defaultResponse)
    ensures Assemble(text, net).Success? && !ShowsCard(Assemble(text, net).value.summary) ==>
      BotReply(text, config, net, draw) == BotText(config.defaultResponse)
  {
  }

  /** When neither the table nor the encyclopedia knows the query, the no-match record is not shown: the reply is the fallback. */
  lemma UnknownQueryGetsFallback(text: string, config: Config, net: Responses, draw: nat)
    requires ValidConfig(config) && draw < |config.wellnessAdvice|
    requires !AnswersLocally(GenerateLocalResponse(text, config, draw))
    requires FindCondition(text).None? && !Truthy(Resolve(text, net).summary)
    ensures BotReply(text, config, net, draw) == BotText(config.defaultResponse)
  {
    NoMatchGivesPlaceholder(text, net);
    CardIffShowable(text, config, net, draw);
    PlaceholderNotShown(Assemble(text, net).value.summary);
  }

  /**
    A curated match with no encyclopedia page still gets a card: the record's
    summary is "Fetching global overview...", which the card test does not
    reject since it compares against "Fetching global health overview...".
  */
  lemma CuratedMatchOfflineGetsCard(text: string, config: Config, net: Responses, draw: nat)
    requires ValidConfig(config) && draw < |config.wellnessAdvice|
    requires !AnswersLocally(GenerateLocalResponse(text, config, draw))
    requires FindCondition(text).Some? && AnsweringPage(net).None?
    ensures Assemble(text, net).Success?
    ensures BotReply(text, config, net, draw).medicalData == Some(Assemble(text, net).value)
    ensures Assemble(text, net).value.summary == FetchingSummary
    ensures BotReply(text, config, net, draw).text == "Here is the clinical overview for " + FindCondition(text).value.name + ":"
  {
    AssembleFailsOnlyOnMissingExtract(text, net);
    CardIffShowable(text, config, net, draw);
    FetchingSummaryShown(Assemble(text, net).value.summary);
  }

  /**
    Without the letters l, y, w, c and t, and with its only "h" at position 2
    followed by "a" (as in "i have a bad migraine"), a message holds no
    directory phrase, advice word or greeting word.
  */
  lemma MigraineAsksNoAdvice(lower: string)
    requires 'l' !in lower && 'y' !in lower && 'w' !in lower && 'c' !in lower && 't' !in lower
    requires |lower| > 3 && lower[2] == 'h' && lower[3] == 'a' && 'h' !in lower[..2] && 'h' !in lower[3..]
    ensures !MentionsWord(lower, DirectoryPhrases)
    ensures !MentionsWord(lower, AdviceWords)
    ensures !MentionsWord(lower, GreetingWords)
  {
    NoWordMentioned(lower, DirectoryPhrases, "lly");
    NoWordMentioned(lower, AdviceWords, "wct");
    NotContainsPair(lower, 'h', 'i', 2);
    NotContainsChar(lower, "hello", 'l');
  }

  /** Without the letters t, f, l, y, w and c (as in "i have a bad migraine"), a message names no wellness topic. */
  lemma MigraineNamesNoTopic(lower: string)
    requires 't' !in lower && 'f' !in lower && 'l' !in lower && 'y' !in lower && 'w' !in lower && 'c' !in lower
    ensures TopicalAdvice(lower).None?
  {
    NotContainsChar(lower, "diet", 't');
    NotContainsChar(lower, "food", 'f');
    NotContainsChar(lower, "sleep", 'l');
    NotContainsChar(lower, "hydrat", 'y');
    NotContainsChar(lower, "water", 'w');
    NotContainsChar(lower, "stress", 't');
    NotContainsChar(lower, "mindful", 'f');
    NotContainsChar(lower, "check-up", 'c');
    NotContainsChar(lower, "screening", 'c');
  }

  /** "I have a bad migraine", with no emergency keyword in it, is not answered locally. */
  lemma MigraineNotLocal(text: string, config: Config, draw: nat)
    requires text == "I have a bad migraine"
    requires ValidConfig(config) && draw < |config.wellnessAdvice|
    requires !MentionsWord(ToLower(text), config.emergencyKeywords)
    ensures GenerateLocalResponse(text, config, draw).None?
  {
    LowerMigraineQuery(text);
    MigraineLetters(ToLower(text));
    MigraineOnlyH(ToLower(text));
    MigraineAsksNoAdvice(ToLower(text));
    MigraineNamesNoTopic(ToLower(text));
  }

  /** Letters that "i have a bad migraine" lacks; `MigraineOnlyH` says where its only "h" is. */
  lemma MigraineLetters(lower: string)
    requires lower == "i have a bad migraine"
    ensures 'l' !in lower && 'y' !in lower && 'w' !in lower
    ensures 'c' !in lower && 't' !in lower && 'f' !in lower
  {
  }

  lemma MigraineOnlyH(lower: string)
    requires lower == "i have a bad migraine"
    ensures |lower| > 3 && lower[2] == 'h' && lower[3] == 'a' && 'h' !in lower[..2] && 'h' !in lower[3..]
  {
    assert lower[3..] == "ave a bad migraine";
  }

  /**
    "I have a bad migraine", with no emergency keyword in it and no encyclopedia
    page, goes to the service and is answered with the curated migraine card.
  */
  lemma MigraineChat(text: string, config: Config, net: Responses, draw: nat)
    requires text == "I have a bad migraine"
    requires ValidConfig(config) && draw < |config.wellnessAdvice|
    requires !MentionsWord(ToLower(text), config.emergencyKeywords)
    requires AnsweringPage(net).None?
    ensures BotReply(text, config, net, draw).medicalData.Some?
    ensures BotReply(text, config, net, draw).medicalData.value.title == "Migraine"
  {
    MigraineNotLocal(text, config, draw);
    MigraineQueryFindsMigraine(text);
    CuratedMatchOfflineGetsCard(text, config, net, draw);
    MigraineQuery(text, net);
  }

  /** Every entry the user sent has non-blank text. */
  predicate UserTextsNonBlank(messages: seq<Message>) {
    forall i :: 0 <= i < |messages| && messages[i].sender == User ==> Trim(messages[i].text) != []
  }

  lemma UserTextsNonBlankAppend(messages: seq<Message>, more: seq<Message>)
    requires UserTextsNonBlank(messages) && UserTextsNonBlank(more)
    ensures UserTextsNonBlank(messages + more)
  {
    forall i | 0 <= i < |messages + more| && (messages + more)[i].sender == User
      ensures Trim((messages + more)[i].text) != []
    {
      if i >= |messages| {
        assert (messages + more)[i] == more[i - |messages|];
      }
    }
  }

  /** The chat state: the transcript and whether the bot is composing a reply. */
  class HealthChat {
    const config: Config
    var messages: seq<Message>
    var isTyping: bool

    /** The transcript opens with the welcome message, and every user entry is non-blank. */
    ghost predicate Valid()
      reads this
    {
      && ValidConfig(config)
      && |messages| > 0
      && messages[0] == BotText(WelcomeText)
      && UserTextsNonBlank(messages)
    }

    constructor(config: Config)
      requires ValidConfig(config)
      ensures Valid()
      ensures this.config == config
      ensures messages == [BotText(WelcomeText)] && !isTyping
    {
      this.config := config;
      messages := [BotText(WelcomeText)];
      isTyping := false;
    }

    /**
      `sendMessage`: blank text is ignored; otherwise the user's message and then
      exactly one bot reply are appended, and the typing flag ends cleared.
    */
    method SendMessage(text: string, net: Responses)
      requires Valid()
      modifies this
      ensures Valid()
      ensures Trim(text) == [] ==> messages == old(messages) && isTyping == old(isTyping)
      ensures Trim(text) != [] ==>
        && |messages| == |old(messages)| + 2
        && messages[..|old(messages)|] == old(messages)
        && messages[|old(messages)|] == Message(text, User, None, None)
        && (exists draw: nat :: draw < |config.wellnessAdvice| && messages[|old(messages)| + 1] == BotReply(text, config, net, draw))
        && !isTyping
    {
      if Trim(text) == [] {
        return;
      }
      ghost var before := messages;
      messages := messages + [Message(text, User, None, None)];
      isTyping := true;

      // `Math.random` picks the advice entry for the generic branch.
      var draw: nat :| draw < |config.wellnessAdvice|;
      var botMessage := Reply(text, net, draw);
      messages := messages + [botMessage];
      isTyping := false;
      assert messages == before + [Message(text, User, None, None), botMessage];
      UserTextsNonBlankAppend(before, [Message(text, User, None, None), botMessage]);
    }

    /** The `try` block of `sendMessage`: a local answer, or a card or fallback from the service. */
    method Reply(text: string, net: Responses, draw: nat) returns (botMessage: Message)
      requires ValidConfig(config) && draw < |config.wellnessAdvice|
      ensures botMessage == BotReply(text, config, net, draw)
    {
      var localResponse := GenerateLocalResponse(text, config, draw);
      if AnswersLocally(localResponse) {
        if localResponse.value == DirectoryTrigger {
          botMessage := Message(DirectoryIntro, Bot, None, Some(DiseaseDirectory));
        } else {
          botMessage := BotText(localResponse.value);
        }
      } else {
        var data, _ := FetchMedicalInfo(text, net);
        if data.Failure? {
          // the `catch`: the assembly threw
          botMessage := BotText(ConnectivityTrouble + config.defaultResponse);
        } else if ShowsCard(data.value.summary) {
          botMessage := Message("Here is the clinical overview for " + data.value.title + ":", Bot, Some(data.value), None);
        } else {
          botMessage := BotText(config.defaultResponse);
        }
      }
    }

    /**
      `getHealthInsights`: appends exactly one bot message, a bare card with the
      record or an apology when the assembly throws, and clears the typing flag.
    */
    method GetHealthInsights(query: string, net: Responses)
      requires Valid()
      modifies this
      ensures Valid()
      ensures Assemble(query, net).Success? ==>
        messages == old(messages) + [Message("", Bot, Some(Assemble(query, net).value), None)]
      ensures Assemble(query, net).Failure? ==>
        messages == old(messages) + [BotText(InsightsFailure)]
      ensures !isTyping
    {
      isTyping := true;
      var data, _ := FetchMedicalInfo(query, net);
      var botMessage;
      if data.Success? {
        botMessage := Message("", Bot, Some(data.value), None);
      } else {
        botMessage := BotText(InsightsFailure);
      }
      UserTextsNonBlankAppend(messages, [botMessage]);
      messages := messages + [botMessage];
      isTyping := false;
    }
  }
}
