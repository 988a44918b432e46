/**
 * The voice assistant's replies: the AI's answer when the AI service is configured and answers,
 * otherwise a fallback — the assistant's greeting, in the message's language, when the message
 * contains a greeting word, and an offer of help naming the assistant when it does not. The AI
 * reply and the language detector's answer are inputs.
 */
module VoiceAssistant {
  import opened Wrappers
  import opened Text
  import opened LineScan
  import opened SkillMatch

  /** The assistants of `ASSISTANT_PERSONALITIES`. */
  datatype Assistant = Pandu | Gammy | Alex

  /** The table lookup by name, with Pandu for a name it does not know. */
  function AssistantNamed(name: string): (a: Assistant)
    ensures name != "Gammy" && name != "Alex" ==> a == Pandu
  {
    match name
    case "Pandu" => Pandu
    case "Gammy" => Gammy
    case "Alex" => Alex
    case _ => Pandu
  }

  /** The personality line of each assistant. */
  function Description(a: Assistant): string {
    match a
    case Pandu => "Friendly and helpful assistant who loves to chat and help with tasks"
    case Gammy => "Wise and caring grandmother figure who gives thoughtful advice"
    case Alex => "Professional and efficient assistant focused on productivity and tasks"
  }

  /** The language codes of the greeting and reply tables, in table order; English comes first. */
  const Languages: seq<string> := ["en", "hi", "te", "es", "fr", "de", "ja", "ko", "zh"]

  /** One assistant's greeting in each language of the table. */
  datatype GreetingTable = GreetingTable(en: string, hi: string, te: string, es: string, fr: string, de: string,
                                         ja: string, ko: string, zh: string)

  /** The entry at a position of `Languages`. */
  function At(t: GreetingTable, i: nat): string
    requires i < |Languages|
  {
    match i
    case 0 => t.en
    case 1 => t.hi
    case 2 => t.te
    case 3 => t.es
    case 4 => t.fr
    case 5 => t.de
    case 6 => t.ja
    case 7 => t.ko
    case _ => t.zh
  }

  /** Each assistant's greetings. */
  function Greetings(a: Assistant): GreetingTable {
    match a
    case Pandu =>
      GreetingTable(
        "Hello! I'm Pandu, your friendly AI assistant. How can I help you today?",
        "Namaste! Main Pandu hun, aapka dostana AI sahayak. Aaj main aapki kya madad kar sakta hun?",
        "Namaskaram! Nenu Pandu, mee snehapoorvaka AI sahayakudu. Eeroju nenu meeku ela sahayam cheyagalanu?",
        "¡Hola! Soy Pandu, tu asistente de IA amigable. ¿Cómo puedo ayudarte hoy?",
        "Bonjour! Je suis Pandu, votre assistant IA amical. Comment puis-je vous aider aujourd'hui?",
        "Hallo! Ich bin Pandu, Ihr freundlicher KI-Assistent. Wie kann ich Ihnen heute helfen?",
        "こんにちは！私はパンドゥ、あなたの親しみやすいAIアシスタントです。今日はどのようにお手伝いできますか？",
        "안녕하세요! 저는 판두, 여러분의 친근한 AI 어시스턴트입니다. 오늘 어떻게 도와드릴까요?",
        "你好！我是潘杜，您友好的AI助手。今天我能为您做些什么？")
    case Gammy =>
      GreetingTable(
        "Hello dear! I'm Gammy, and I'm here to take care of you. What's on your mind?",
        "Namaste pyare! Main Gammy hun, aur main aapki dekhbhal karne ke liye yahan hun. Aapke man mein kya hai?",
        "Namaskaram priyamaina! Nenu Gammy, mariyu nenu mee jagratta teesukovadaniki ikkada unnanu. Mee manasulo emi undi?",
        "¡Hola querido! Soy Gammy, y estoy aquí para cuidarte. ¿Qué tienes en mente?",
        "Bonjour mon cher! Je suis Gammy, et je suis ici pour prendre soin de vous. Qu'est-ce qui vous préoccupe?",
        "Hallo Liebling! Ich bin Gammy, und ich bin hier, um mich um Sie zu kümmern. Was beschäftigt Sie?",
        "こんにちは！私はガミーです。あなたのお世話をするためにここにいます。何か心配事がありますか？",
        "안녕하세요! 저는 가미입니다. 여러분을 돌보기 위해 여기 있습니다. 무엇이 마음에 걸리시나요?",
        "你好亲爱的！我是加米，我在这里照顾您。您在想什么？")
    case Alex =>
      GreetingTable(
        "Hello! I'm Alex, your productivity assistant. How can I help you accomplish your goals today?",
        "Namaste! Main Alex hun, aapka utpadakta sahayak. Aaj main aapke lakshyon ko prapt karne mein kya madad kar sakta hun?",
        "Namaskaram! Nenu Alex, mee utpadakata sahayakudu. Eeroju mee lakshyalaanu saadhinchadanki nenu ela sahayam cheyagalanu?",
        "¡Hola! Soy Alex, tu asistente de productividad. ¿Cómo puedo ayudarte a alcanzar tus objetivos hoy?",
        "Bonjour! Je suis Alex, votre assistant de productivité. Comment puis-je vous aider à atteindre vos objectifs aujourd'hui?",
        "Hallo! Ich bin Alex, Ihr Produktivitätsassistent. Wie kann ich Ihnen heute dabei helfen, Ihre Ziele zu erreichen?",
        "こんにちは！私はアレックス、あなたの生産性アシスタントです。今日はどのように目標達成をお手伝いできますか？",
        "안녕하세요! 저는 알렉스, 여러분의 생산성 어시스턴트입니다. 오늘 목표 달성에 어떻게 도와드릴까요?",
        "你好！我是亚历克斯，您的生产力助手。今天我能如何帮助您实现目标？")
  }

  /** The default replies, in the order of `Languages`: the text before and after the name. */
  const DefaultTemplates: seq<(string, string)> := [
    ("I'm ", ", and I'm here to help! What would you like to know?"),
    ("Main ", " hun, aur main madad karne ke liye yahan hun! Aap kya janna chahte hain?"),
    ("Nenu ", ", mariyu nenu sahayam cheyadanki ikkada unnanu! Meeru emi telusukovalani korutunnaru?"),
    ("¡Soy ", ", y estoy aquí para ayudar! ¿Qué te gustaría saber?"),
    ("Je suis ", ", et je suis ici pour vous aider ! Que souhaitez-vous savoir ?"),
    ("Ich bin ", ", und ich bin hier, um zu helfen! Was möchten Sie wissen?"),
    ("私は", "です。お手伝いするためにここにいます！何を知りたいですか？"),
    ("저는 ", "입니다. 도움을 드리기 위해 여기 있습니다! 무엇을 알고 싶으신가요?"),
    ("我是", "，我在这里帮助您！您想了解什么？")]

  /** The table position of a language code; an unknown code reads the English entry. */
  function Entry(language: string): (i: nat)
    ensures i < |Languages|
    ensures language in Languages ==> Languages[i] == language
    ensures language !in Languages ==> i == 0
  {
    match IndexOf(Languages, language)
    case Some(i) => i
    case None => 0
  }

  /** Each language code occurs once in the tables, English first. */
  lemma LanguagesDistinct()
    ensures NoDuplicates(Languages) && Languages[0] == "en"
  {
  }

  /**
   * `assistant["greetings"].get(language, assistant["greetings"]["en"])`, for the named
   * assistant or Pandu: the greeting in the entry of that language, or the English one.
   */
  function Greeting(name: string, language: string): (g: string)
    ensures forall i :: 0 <= i < |Languages| && Languages[i] == language ==> g == At(Greetings(AssistantNamed(name)), i)
    ensures language !in Languages ==> g == Greetings(AssistantNamed(name)).en
  {
    GreetingIn(Greetings(AssistantNamed(name)), language)
  }

  /** `table.get(language, table["en"])` for one assistant's greeting table. */
  function GreetingIn(table: GreetingTable, language: string): (g: string)
    ensures forall i :: 0 <= i < |Languages| && Languages[i] == language ==> g == At(table, i)
    ensures language !in Languages ==> g == table.en
  {
    LanguagesDistinct();
    At(table, Entry(language))
  }

  /** An unknown assistant greets as Pandu; an unknown language greets in English. */
  lemma GreetingFallbacks(name: string, language: string)
    ensures name != "Gammy" && name != "Alex" ==> Greeting(name, language) == Greeting("Pandu", language)
    ensures language !in Languages ==> Greeting(name, language) == Greeting(name, "en")
  {
    LanguagesDistinct();
  }

  /** An f-string with the assistant's name in the middle. */
  function DefaultTemplate(before: string, name: string, after: string): (text: string)
    ensures Contains(text, name)
  {
    var text := before + name + after;
    assert OccursAt(text, name, |before|);
    text
  }

  /**
   * `responses.get(language, responses["en"])`: the default reply of that language, or the
   * English one; every one of them names the assistant.
   */
  function DefaultResponse(name: string, language: string): (text: string)
    ensures Contains(text, name)
    ensures forall i :: 0 <= i < |Languages| && Languages[i] == language ==>
      text == DefaultTemplates[i].0 + name + DefaultTemplates[i].1
    ensures language !in Languages ==> text == DefaultTemplates[0].0 + name + DefaultTemplates[0].1
  {
    LanguagesDistinct();
    var template := DefaultTemplates[Entry(language)];
    DefaultTemplate(template.0, name, template.1)
  }

  /** The words, in any script, that make a message a greeting. */
  const GreetingWords: seq<string> := [
    "hello", "hi", "hey", "namaste", "नमस्ते", "నమస్కారం",
    "hola", "bonjour", "hallo", "こんにちは", "안녕하세요", "你好"]

  /**
   * `get_fallback_response`: the greeting when the lower-cased message contains one of the
   * greeting words (the loop stops at the first hit, and every hit gives the same reply),
   * otherwise the default reply.
   */
  function FallbackResponse(userInput: string, name: string, language: string): (reply: string)
    ensures MentionsAny(Lower(userInput), GreetingWords) ==> reply == Greeting(name, language)
    ensures !MentionsAny(Lower(userInput), GreetingWords) ==> reply == DefaultResponse(name, language)
    ensures !MentionsAny(Lower(userInput), GreetingWords) ==> Contains(reply, name)
  {
    if MentionsAny(Lower(userInput), GreetingWords) then Greeting(name, language)
    else DefaultResponse(name, language)
  }

  /** The greeting words are matched as substrings: "hi" inside "this" makes it a greeting. */
  lemma GreetingInsideWord(name: string, language: string)
    ensures FallbackResponse("this", name, language) == Greeting(name, language)
  {
    HiInsideThis();
  }

  lemma HiInsideThis()
    ensures MentionsAny(Lower("this"), GreetingWords)
  {
    assert Lower("this") == "this";
    assert GreetingWords[1] == "hi";
    assert OccursAt("this", GreetingWords[1], 1);
  }

  /**
   * `get_assistant_response`: the AI's answer, stripped, when the service is configured and
   * answers; the fallback reply when no key is set or the call raises.
   */
  function AssistantResponse(userInput: string, name: string, language: string, ai: AiReply): (reply: string)
    ensures ai.Answered? ==> reply == Strip(ai.text)
    ensures !ai.Answered? ==> reply == FallbackResponse(userInput, name, language)
  {
    match ai
    case Answered(text) => Strip(text)
    case _ => FallbackResponse(userInput, name, language)
  }

  /** `detect_language`: the detector's answer, or "en" when it raised (or is not installed). */
  function DetectLanguage(detected: Option<string>): (language: string)
    ensures detected.None? ==> language == "en"
    ensures detected.Some? ==> language == detected.value
  {
    detected.GetOr("en")
  }

  /** `VoiceResponse` */
  datatype VoiceResponse = VoiceResponse(text: string, language: string, confidence: real)

  /**
   * `process_voice_message`: a missing or "auto" language is detected first; the reply is the
   * assistant's answer in that language, with confidence 0.95.
   */
  function ProcessVoiceMessage(text: string, language: string, name: string, detected: Option<string>, ai: AiReply)
    : (response: VoiceResponse)
    ensures language != "" && language != "auto" ==> response.language == language
    ensures language == "" || language == "auto" ==> response.language == DetectLanguage(detected)
    ensures response.text == AssistantResponse(text, name, response.language, ai)
    ensures response.confidence == 0.95
  {
    var lang := if language == "" || language == "auto" then DetectLanguage(detected) else language;
    VoiceResponse(AssistantResponse(text, name, lang, ai), lang, 0.95)
  }
}
