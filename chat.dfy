/**
 * The assistant chat: a keyword-driven reply table and the view-model that
 * appends the user's message and, after a pause, the reply. Message ids and
 * timestamps (a random UUID and the clock) are parameters.
 */
module Chat {
  import opened Wrappers
  import opened Text

  datatype ChatMessage = ChatMessage(id: string, text: string, isUser: bool, timestamp: int)

  // The replies. The default one is split so that its pieces stay short.

  const InventoryReply := "\U{1F4E6}" + " To manage your inventory:\n1. Go to Products\n2. Click + to add\n3. Edit or delete items\n4. Check stats anytime"
  const StatisticsReply := "\U{1F4CA}" + " Your Statistics:\n\U{2022} Total Products: Check Dashboard\n\U{2022} Total Value: Displayed on cards\n\U{2022} Search to find specific items"
  const ExportReply := "\U{1F4E5}" + " Export your data:\n\U{2022} CSV for Excel\n\U{2022} JSON for backup\n\U{2022} PDF reports"
  const SearchReply := "\U{1F50D}" + " Search products:\n1. Go to Search tab\n2. Type product name\n3. Filter results instantly"
  const HelpReply := "\U{2753}" + " I can help with:\n\U{2022} Inventory management\n\U{2022} Statistics\n\U{2022} Exporting data\n\U{2022} Product search\n\nTry asking about: inventory, statistics, export, search"

  const QueryPlaceholder := "{query}"
  const DefaultLead := "\U{1F60A}" + " I understand you're asking: '"
  const DefaultTailA := "'\n\nI can help with inventory, "
  const DefaultTailB := "statistics, search, and exports. "
  const DefaultTailC := "What would you like to know?"
  const DefaultTail := DefaultTailA + DefaultTailB + DefaultTailC
  const DefaultTemplate := DefaultLead + QueryPlaceholder + DefaultTail

  /** The botResponses table, keyed by topic name. */
  const BotResponses: map<string, string> := map[
    "inventory" := InventoryReply,
    "statistics" := StatisticsReply,
    "export" := ExportReply,
    "search" := SearchReply,
    "help" := HelpReply,
    "default" := DefaultTemplate]

  /** The topics, in the order the keywords are tried. */
  datatype Topic = Inventory | Statistics | Export | SearchTopic | Help | Other

  function Rank(t: Topic): nat {
    match t
    case Inventory => 0
    case Statistics => 1
    case Export => 2
    case SearchTopic => 3
    case Help => 4
    case Other => 5
  }

  function TopicKey(t: Topic): string {
    match t
    case Inventory => "inventory"
    case Statistics => "statistics"
    case Export => "export"
    case SearchTopic => "search"
    case Help => "help"
    case Other => "default"
  }

  /** The (lower-cased) message holds one of the topic's keywords. */
  predicate Mentions(lower: string, t: Topic) {
    match t
    case Inventory => Contains(lower, "inventory")
    case Statistics => Contains(lower, "statistics") || Contains(lower, "stats")
    case Export => Contains(lower, "export") || Contains(lower, "share")
    case SearchTopic => Contains(lower, "search") || Contains(lower, "find")
    case Help => Contains(lower, "help") || Contains(lower, "what")
    case Other => false
  }

  /** The first topic whose keyword the lower-cased message contains. */
  function Classify(lower: string): (r: Topic)
    ensures r != Other ==> Mentions(lower, r)
    ensures forall t :: Rank(t) < Rank(r) ==> !Mentions(lower, t)
  {
    if Contains(lower, "inventory") then Inventory
    else if Contains(lower, "statistics") || Contains(lower, "stats") then Statistics
    else if Contains(lower, "export") || Contains(lower, "share") then Export
    else if Contains(lower, "search") || Contains(lower, "find") then SearchTopic
    else if Contains(lower, "help") || Contains(lower, "what") then Help
    else Other
  }

  /** A message no keyword matches falls through to the default reply. */
  lemma ClassifyOtherIffNoKeyword(lower: string)
    ensures Classify(lower) == Other <==> forall t :: !Mentions(lower, t)
  {
  }

  /** generateBotResponse: the table entry of the topic, or the default
      reply with `{query}` replaced by the message as typed. */
  function GenerateBotResponse(userMessage: string): string {
    var topic := Classify(Lower(userMessage));
    if topic == Other then ReplaceAll(BotResponses["default"], QueryPlaceholder, userMessage)
    else BotResponses[TopicKey(topic)]
  }

  /** The reply is the table entry of the first topic the message mentions;
      a message that mentions none is quoted, as typed, inside the default
      reply. */
  lemma GenerateBotResponseSpec(userMessage: string)
    ensures Classify(Lower(userMessage)) != Other ==>
      GenerateBotResponse(userMessage) == BotResponses[TopicKey(Classify(Lower(userMessage)))]
    ensures Classify(Lower(userMessage)) == Other ==>
      GenerateBotResponse(userMessage) == DefaultLead + userMessage + DefaultTail
      && Contains(GenerateBotResponse(userMessage), userMessage)
  {
    if Classify(Lower(userMessage)) == Other {
      DefaultQuoting(userMessage);
    }
  }

  /** The default reply quotes the message once, where `{query}` stood. */
  lemma DefaultQuoting(userMessage: string)
    ensures ReplaceAll(DefaultTemplate, QueryPlaceholder, userMessage) == DefaultLead + userMessage + DefaultTail
    ensures Contains(DefaultLead + userMessage + DefaultTail, userMessage)
  {
    PlaceholderOnlyBrace();
    ReplaceAllOnce(DefaultLead, QueryPlaceholder, DefaultTail, userMessage);
    ContainsMiddle(DefaultLead, userMessage, DefaultTail);
  }

  /** The placeholder's opening brace appears nowhere else in the template. */
  lemma PlaceholderOnlyBrace()
    ensures QueryPlaceholder[0] == '{'
    ensures '{' !in DefaultLead && '{' !in DefaultTail
  {
    NoBrace(DefaultLead);
    NoBrace(DefaultTailA);
    NoBrace(DefaultTailB);
    NoBrace(DefaultTailC);
  }

  lemma NoBrace(piece: string)
    requires piece in {DefaultLead, DefaultTailA, DefaultTailB, DefaultTailC}
    ensures '{' !in piece
  {
  }

  /** The replies of different topics differ, so the reply tells which
      topic was chosen; no topic reply is a default reply, whatever the
      message quoted in it. */
  lemma RepliesDistinct(t1: Topic, t2: Topic, m: string)
    requires t1 != Other && t2 != Other && t1 != t2
    ensures BotResponses[TopicKey(t1)] != BotResponses[TopicKey(t2)]
    ensures BotResponses[TopicKey(t1)] != DefaultLead + m + DefaultTail
    ensures !StartsWith(BotResponses[TopicKey(t1)], DefaultLead)
  {
    assert (DefaultLead + m + DefaultTail)[0] == DefaultLead[0] == '\U{1F60A}';
    assert InventoryReply[0] == '\U{1F4E6}' && StatisticsReply[0] == '\U{1F4CA}';
    assert ExportReply[0] == '\U{1F4E5}' && SearchReply[0] == '\U{1F50D}' && HelpReply[0] == '\U{2753}';
  }

  /** The message gets the default reply exactly when it mentions no
      keyword. */
  lemma DefaultReplyIffNoKeyword(userMessage: string)
    ensures GenerateBotResponse(userMessage) == DefaultLead + userMessage + DefaultTail
        <==> forall t :: !Mentions(Lower(userMessage), t)
  {
    var topic := Classify(Lower(userMessage));
    GenerateBotResponseSpec(userMessage);
    if topic != Other {
      RepliesDistinct(topic, if topic == Inventory then Help else Inventory, userMessage);
    }
  }

  /** Keyword matching ignores case. */
  lemma ReplyIgnoresCase(m1: string, m2: string)
    requires Lower(m1) == Lower(m2) && Classify(Lower(m1)) != Other
    ensures GenerateBotResponse(m1) == GenerateBotResponse(m2)
  {
  }

  /** "whatever" holds "what" and no earlier keyword: it gets the help reply. */
  lemma WhateverGetsHelp(m: string)
    requires m == "whatever"
    ensures GenerateBotResponse(m) == HelpReply
  {
    var lower := Lower(m);
    assert lower == "whatever";
    WhateverIsHelp(lower);
  }

  lemma WhateverIsHelp(lower: string)
    requires lower == "whatever"
    ensures Classify(lower) == Help
  {
    NotContainsByChar(lower, "inventory", 1);
    NotContainsByChar(lower, "statistics", 0);
    NotContainsByChar(lower, "stats", 0);
    NotContainsByChar(lower, "export", 1);
    NotContainsByChar(lower, "share", 0);
    NotContainsByChar(lower, "search", 0);
    NotContainsByChar(lower, "find", 0);
    NotContainsByChar(lower, "help", 2);
    assert StartsWith(lower, "what");
  }

  /** "Show me the STATS" is a statistics question. */
  lemma UpperCaseStats(m: string)
    requires m == "Show me the STATS"
    ensures GenerateBotResponse(m) == StatisticsReply
  {
    var lower := Lower(m);
    assert lower == "show me the stats";
    StatsIsStatistics(lower);
  }

  lemma StatsIsStatistics(lower: string)
    requires lower == "show me the stats"
    ensures Classify(lower) == Statistics
  {
    NotContainsByChar(lower, "inventory", 0);
    assert lower[12..] == "stats";
    ContainsIff(lower, "stats");
    assert OccursAt(lower, "stats", 12);
  }

  /** "hello" mentions nothing: it is quoted back in the default reply. */
  lemma HelloGetsDefault(m: string)
    requires m == "hello"
    ensures GenerateBotResponse(m) == DefaultLead + m + DefaultTail
  {
    var lower := Lower(m);
    assert lower == "hello";
    HelloIsOther(lower);
    GenerateBotResponseSpec(m);
  }

  lemma HelloIsOther(lower: string)
    requires lower == "hello"
    ensures Classify(lower) == Other
  {
    NotContainsByChar(lower, "inventory", 0);
    NotContainsByChar(lower, "statistics", 0);
    NotContainsByChar(lower, "stats", 0);
    NotContainsByChar(lower, "export", 1);
    NotContainsByChar(lower, "share", 0);
    NotContainsByChar(lower, "search", 0);
    NotContainsByChar(lower, "find", 0);
    NotContainsByChar(lower, "help", 3);
    NotContainsByChar(lower, "what", 0);
  }

  /** Every user message in the conversation is trimmed and non-empty. */
  ghost predicate UserMessagesTrimmed(messages: seq<ChatMessage>) {
    forall i :: 0 <= i < |messages| && messages[i].isUser ==>
      messages[i].text != "" && Trim(messages[i].text) == messages[i].text
  }

  /**
   * ChatViewModel: the conversation, the input field and the typing flag.
   * sendMessage's coroutine suspends during its 800 ms pause, so it is
   * modelled as two steps: SendMessage posts the user's message and
   * DeliverReply posts the reply once the pause is over. The ghost queue
   * `owed` holds the user texts whose reply is still to come; every pause
   * is equally long, so replies come in the order the messages were sent.
   */
  class ChatViewModel {
    var messages: seq<ChatMessage>
    var inputText: string
    var isLoading: bool
    ghost var owed: seq<string>

    ghost predicate Valid()
      reads this
    {
      UserMessagesTrimmed(messages)
    }

    constructor ()
      ensures messages == [] && inputText == "" && !isLoading && owed == []
      ensures Valid()
    {
      messages := [];
      inputText := "";
      isLoading := false;
      owed := [];
    }

    method UpdateInput(text: string)
      modifies this
      ensures inputText == text
      ensures messages == old(messages) && isLoading == old(isLoading) && owed == old(owed)
    {
      inputText := text;
    }

    /** Posts the trimmed input as the user's message, unless it is empty;
        returns the message the reply is owed to. */
    method SendMessage(userId: string, userTimestamp: int) returns (pending: Option<string>)
      requires Valid()
      modifies this
      ensures Valid()
      ensures pending.None? <==> IsBlank(old(inputText))
      ensures pending.None? ==>
        messages == old(messages) && inputText == old(inputText) && isLoading == old(isLoading)
        && owed == old(owed)
      ensures pending.Some? ==>
        && pending.value == Trim(old(inputText)) && pending.value != ""
        && messages == old(messages) + [ChatMessage(userId, pending.value, true, userTimestamp)]
        && inputText == "" && isLoading
        && owed == old(owed) + [pending.value]
    {
      var message := Trim(inputText);
      TrimEmptyIffBlank(inputText);
      if message == "" {
        return None;
      }
      TrimIdempotent(inputText);
      messages := messages + [ChatMessage(userId, message, true, userTimestamp)];
      inputText := "";
      isLoading := true;
      owed := owed + [message];
      pending := Some(message);
    }

    /** After the pause: appends the bot's reply to the oldest message still
        owed one and clears the flag. */
    method DeliverReply(message: string, botId: string, botTimestamp: int)
      requires Valid()
      requires owed != [] && message == owed[0]
      modifies this
      ensures Valid()
      ensures messages == old(messages) + [ChatMessage(botId, GenerateBotResponse(message), false, botTimestamp)]
      ensures inputText == old(inputText) && !isLoading
      ensures owed == old(owed)[1..]
    {
      var response := GenerateBotResponse(message);
      messages := messages + [ChatMessage(botId, response, false, botTimestamp)];
      isLoading := false;
      owed := owed[1..];
    }

    /** sendMessage run to completion while no other reply is owed: a blank
        input changes nothing; otherwise the trimmed input and then its reply
        are appended, the input is empty and the flag is off. */
    method SendMessageAndReply(userId: string, userTimestamp: int, botId: string, botTimestamp: int)
      returns (sent: bool)
      requires Valid() && owed == []
      modifies this
      ensures Valid() && owed == []
      ensures sent <==> !IsBlank(old(inputText))
      ensures !sent ==>
        messages == old(messages) && inputText == old(inputText) && isLoading == old(isLoading)
      ensures sent ==>
        && messages == old(messages)
             + [ChatMessage(userId, Trim(old(inputText)), true, userTimestamp)]
             + [ChatMessage(botId, GenerateBotResponse(Trim(old(inputText))), false, botTimestamp)]
        && inputText == "" && !isLoading
    {
      var pending := SendMessage(userId, userTimestamp);
      sent := pending.Some?;
      if pending.Some? {
        DeliverReply(pending.value, botId, botTimestamp);
      }
    }
  }
}
