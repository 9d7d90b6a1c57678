/**
 * The Buddhist-philosophy chat: the user picks one of three hosts (Kūkai, Dōgen, Shinran)
 * and writes messages; each message gets a canned answer chosen by a keyword topic router
 * from the host's wisdom table. The greetings and the wisdom texts are opaque constants
 * here, given to the chat when it is built. The 300 ms welcome timer and the 1–2 s reply
 * timer become queues that explicit Fire* steps drain; replies may fire in any order.
 */
module BuddhistChat {
  import opened Wrappers
  import opened Text

  datatype Topic = Suffering | Meaning | Peace | Practice | Default

  const SufferingWords: seq<string> := ["苦し", "辛い", "つらい", "悲し", "痛い", "不安", "怖い", "恐れ", "悩み", "困"]
  const MeaningWords: seq<string> := ["意味", "目的", "生きる", "人生", "なぜ", "理由", "価値"]
  const PeaceWords: seq<string> := ["平安", "安らぎ", "穏やか", "平和", "落ち着", "リラックス", "安心"]
  const PracticeWords: seq<string> := ["実践", "日常", "毎日", "具体的", "どうすれば", "方法", "やり方", "習慣"]

  /** `keywords.some(keyword => text.includes(keyword))`. */
  function ContainsAny(text: string, keywords: seq<string>): (b: bool)
    ensures b <==> exists i :: 0 <= i < |keywords| && Occurs(text, keywords[i])
  {
    if keywords == [] then false
    else
      var rest := ContainsAny(text, keywords[1..]);
      assert forall i :: 1 <= i < |keywords| ==> keywords[i] == keywords[1..][i - 1];
      Includes(text, keywords[0]) || rest
  }

  /**
   * The topic of a message: the first list, in a fixed order, that has a keyword in it.
   * Lower-casing the message first changes nothing here: every keyword is kana or kanji,
   * which lower-casing neither produces nor alters.
   */
  function DetectTopic(message: string): Topic
  {
    if ContainsAny(message, SufferingWords) then Suffering
    else if ContainsAny(message, MeaningWords) then Meaning
    else if ContainsAny(message, PeaceWords) then Peace
    else if ContainsAny(message, PracticeWords) then Practice
    else Default
  }

  /** Suffering outranks meaning, meaning outranks peace, peace outranks practice. */
  lemma TopicPriority(m: string)
    ensures DetectTopic(m) == Suffering <==> ContainsAny(m, SufferingWords)
    ensures DetectTopic(m) == Meaning <==> !ContainsAny(m, SufferingWords) && ContainsAny(m, MeaningWords)
    ensures DetectTopic(m) == Peace <==>
      !ContainsAny(m, SufferingWords) && !ContainsAny(m, MeaningWords) && ContainsAny(m, PeaceWords)
    ensures DetectTopic(m) == Practice <==>
      !ContainsAny(m, SufferingWords) && !ContainsAny(m, MeaningWords) && !ContainsAny(m, PeaceWords)
      && ContainsAny(m, PracticeWords)
    ensures DetectTopic(m) == Default <==>
      !ContainsAny(m, SufferingWords) && !ContainsAny(m, MeaningWords) && !ContainsAny(m, PeaceWords)
      && !ContainsAny(m, PracticeWords)
  {
  }

  /** A message about life (人生) that is also anxious (不安) is routed to suffering. */
  lemma AnxiousAboutLife()
    ensures ContainsAny("人生が不安です", MeaningWords)
    ensures DetectTopic("人生が不安です") == Suffering
  {
    assert OccursAt("人生が不安です", SufferingWords[5], 3);
    assert OccursAt("人生が不安です", MeaningWords[3], 0);
  }

  // ---------------------------------------------------------------------------
  // Hosts and answers

  /** The keys of `hosts` (and of the wisdom table). */
  predicate Known(hostId: string) { hostId == "kukai" || hostId == "dogen" || hostId == "shinran" }

  /** One entry of the wisdom table. */
  datatype Wisdom = Wisdom(response: string, question: string, practical: string)

  /** What generateResponse returns. */
  datatype Reply = Reply(text: string, question: string, practical: string)

  /**
   * generateResponse for the host selected when it runs. With no known host selected the
   * wisdom lookup is undefined and reading it throws: None. Every host has an entry for
   * every topic, so the `|| wisdom.default` fallback never applies.
   */
  function GenerateResponse(wisdom: (string, Topic) -> Wisdom, host: Option<string>, message: string): (r: Option<Reply>)
    ensures r.Some? <==> host.Some? && Known(host.value)
    ensures r.Some? ==>
      var w := wisdom(host.value, DetectTopic(message));
      r.value.text == w.response && r.value.question == w.question && r.value.practical == w.practical
  {
    if host.Some? && Known(host.value) then
      var w := wisdom(host.value, DetectTopic(message));
      Some(Reply(w.response, w.question, w.practical))
    else None
  }

  // ---------------------------------------------------------------------------
  // The chat's state

  datatype Sender = User | Host

  /** An entry of `chatHistory`: `{ type, text, question, practical }`. */
  datatype Message = Message(sender: Sender, text: string, question: Option<string>, practical: Option<string>)

  /** The saved `{ currentHost, chatHistory }`. */
  datatype Stored = Stored(currentHost: Option<string>, chatHistory: Option<seq<Message>>)

  class Chat {
    var currentHost: Option<string>
    var chatHistory: seq<Message>
    /** The `buddhistChatState` entry of local storage. */
    var stored: Option<Stored>
    /** Greetings whose 300 ms timer has not fired yet, oldest first. */
    var pendingWelcomes: seq<string>
    /** User messages whose reply timer has not fired yet. */
    var pendingReplies: seq<string>
    const wisdom: (string, Topic) -> Wisdom
    const greeting: string -> string

    constructor (wisdom: (string, Topic) -> Wisdom, greeting: string -> string, stored: Option<Stored>)
      ensures this.wisdom == wisdom && this.greeting == greeting && this.stored == stored
      ensures currentHost.None? && chatHistory == [] && pendingWelcomes == [] && pendingReplies == []
    {
      this.wisdom := wisdom;
      this.greeting := greeting;
      this.stored := stored;
      currentHost := None;
      chatHistory := [];
      pendingWelcomes := [];
      pendingReplies := [];
    }

    /** saveState. */
    method SaveState()
      modifies this`stored
      ensures stored == Some(Stored(currentHost, Some(chatHistory)))
    {
      stored := Some(Stored(currentHost, Some(chatHistory)));
    }

    /**
     * selectHost: the host becomes current; for a known host the history is emptied, the
     * greeting is queued and the state saved. An unknown id throws right after being made
     * current (its `avatar` is read from undefined), so nothing else changes.
     */
    method SelectHost(hostId: string) returns (shown: bool)
      modifies this`currentHost, this`chatHistory, this`pendingWelcomes, this`stored
      ensures currentHost == Some(hostId) && shown == Known(hostId)
      ensures shown ==> chatHistory == [] && pendingWelcomes == old(pendingWelcomes) + [greeting(hostId)]
                        && stored == Some(Stored(Some(hostId), Some([])))
      ensures !shown ==> chatHistory == old(chatHistory) && pendingWelcomes == old(pendingWelcomes)
                         && stored == old(stored)
    {
      currentHost := Some(hostId);
      if !Known(hostId) {
        return false;
      }
      chatHistory := [];
      pendingWelcomes := pendingWelcomes + [greeting(hostId)];
      SaveState();
      shown := true;
    }

    /** showHostSelection: back to the host cards, with no current host. */
    method ShowHostSelection()
      modifies this`currentHost, this`stored
      ensures currentHost.None? && stored == Some(Stored(None, Some(chatHistory)))
    {
      currentHost := None;
      SaveState();
    }

    /** addMessage: exactly one entry appended to the history, which is then saved. */
    method AddMessage(text: string, sender: Sender, question: Option<string>, practical: Option<string>)
      modifies this`chatHistory, this`stored
      ensures chatHistory == old(chatHistory) + [Message(sender, text, question, practical)]
      ensures stored == Some(Stored(currentHost, Some(chatHistory)))
    {
      chatHistory := chatHistory + [Message(sender, text, question, practical)];
      SaveState();
    }

    /**
     * A host message looks up the current host's avatar when `currentHost` is truthy;
     * that lookup throws for an unknown id, before anything is appended.
     */
    predicate HostAvatarFound()
      reads this
    {
      currentHost.None? || currentHost.value == "" || Known(currentHost.value)
    }

    /**
     * The welcome timer fires: the oldest queued greeting leaves the queue and is added
     * as a host message, unless the avatar lookup throws, which leaves history and storage alone.
     */
    method FireWelcome() returns (delivered: bool)
      requires pendingWelcomes != []
      modifies this`pendingWelcomes, this`chatHistory, this`stored
      ensures pendingWelcomes == old(pendingWelcomes[1..])
      ensures delivered == HostAvatarFound()
      ensures !delivered ==> chatHistory == old(chatHistory) && stored == old(stored)
      ensures delivered ==> chatHistory == old(chatHistory) + [Message(Host, old(pendingWelcomes[0]), None, None)]
                            && stored == Some(Stored(currentHost, Some(chatHistory)))
    {
      var text := pendingWelcomes[0];
      pendingWelcomes := pendingWelcomes[1..];
      if !HostAvatarFound() {
        return false;
      }
      AddMessage(text, Host, None, None);
      delivered := true;
    }

    /**
     * sendMessage: a blank message (after trim) is dropped. Otherwise the trimmed text is
     * added as a user message and, when a known host is selected, its reply is queued; with
     * none, drawing the typing indicator throws and no reply is queued.
     */
    method SendMessage(input: string) returns (sent: bool)
      modifies this`chatHistory, this`stored, this`pendingReplies
      ensures sent <==> Trim(input) != []
      ensures !sent ==> chatHistory == old(chatHistory) && stored == old(stored) && pendingReplies == old(pendingReplies)
      ensures sent ==> chatHistory == old(chatHistory) + [Message(User, Trim(input), None, None)]
                       && stored == Some(Stored(currentHost, Some(chatHistory)))
      ensures sent ==> pendingReplies == old(pendingReplies) + (if currentHost.Some? && Known(currentHost.value) then [Trim(input)] else [])
    {
      var message := Trim(input);
      if message == [] {
        return false;
      }
      AddMessage(message, User, None, None);
      if currentHost.Some? && Known(currentHost.value) {
        pendingReplies := pendingReplies + [message];
      }
      sent := true;
    }

    /**
     * A reply timer fires (any of the pending ones: their delays are random). The answer
     * is generated for the host current at that moment; with none it throws and nothing is
     * added.
     */
    method FireReply(k: nat) returns (delivered: bool)
      requires k < |pendingReplies|
      modifies this`pendingReplies, this`chatHistory, this`stored
      ensures pendingReplies == old(pendingReplies[..k] + pendingReplies[k + 1..])
      ensures var r := GenerateResponse(wisdom, currentHost, old(pendingReplies[k]));
        && delivered == r.Some?
        && (!delivered ==> chatHistory == old(chatHistory) && stored == old(stored))
        && (delivered ==>
              chatHistory == old(chatHistory) + [Message(Host, r.value.text, Some(r.value.question), Some(r.value.practical))]
              && stored == Some(Stored(currentHost, Some(chatHistory))))
    {
      var message := pendingReplies[k];
      pendingReplies := pendingReplies[..k] + pendingReplies[k + 1..];
      var r := GenerateResponse(wisdom, currentHost, message);
      if r.None? {
        return false;
      }
      AddMessage(r.value.text, Host, Some(r.value.question), Some(r.value.practical));
      delivered := true;
    }

    /** loadState: restores only a saved state whose host is one of the known hosts. */
    method LoadState(saved: Option<Stored>)
      modifies this`currentHost, this`chatHistory
      ensures if saved.Some? && saved.value.currentHost.Some? && Known(saved.value.currentHost.value)
              then currentHost == saved.value.currentHost && chatHistory == saved.value.chatHistory.GetOr([])
              else currentHost == old(currentHost) && chatHistory == old(chatHistory)
    {
      if saved.Some? && saved.value.currentHost.Some? && Known(saved.value.currentHost.value) {
        currentHost := saved.value.currentHost;
        chatHistory := saved.value.chatHistory.GetOr([]);
      }
    }
  }

  /** The padded question trims to its words. */
  lemma QuestionTrims()
    ensures Trim(" 人生が不安です\n") == "人生が不安です"
  {
    var input := " 人生が不安です\n";
    var t := input[1..];
    assert TrimStart(input) == TrimStart(t);
    assert TrimStart(t) == t;
    assert t[..|t| - 1] == "人生が不安です";
    assert TrimEnd(t) == TrimEnd("人生が不安です");
  }

  /** Dōgen is selected and his greeting has been shown; no reply is pending. */
  method GreetedByDogen(wisdom: (string, Topic) -> Wisdom, greeting: string -> string) returns (chat: Chat)
    ensures fresh(chat) && chat.wisdom == wisdom && chat.currentHost == Some("dogen")
    ensures chat.chatHistory == [Message(Host, greeting("dogen"), None, None)] && chat.pendingReplies == []
  {
    chat := new Chat(wisdom, greeting, None);
    var _ := chat.SelectHost("dogen");
    var _ := chat.FireWelcome();
  }

  /**
   * Dōgen is selected, then an unknown id before the welcome timer fires: the greeting
   * is consumed but the avatar lookup throws, so nothing is shown.
   */
  method StrayHostLosesWelcome(wisdom: (string, Topic) -> Wisdom, greeting: string -> string)
    returns (delivered: bool, history: seq<Message>)
    ensures !delivered && history == []
  {
    var chat := new Chat(wisdom, greeting, None);
    var _ := chat.SelectHost("dogen");
    var _ := chat.SelectHost("x");
    delivered := chat.FireWelcome();
    history := chat.chatHistory;
  }

  /**
   * A whole conversation with Dōgen: the greeting, the user's trimmed message and the
   * suffering answer are in the history, which has been saved with the host.
   */
  method DogenConversation(wisdom: (string, Topic) -> Wisdom, greeting: string -> string) returns (chat: Chat)
    ensures |chat.chatHistory| == 3
    ensures chat.chatHistory[0] == Message(Host, greeting("dogen"), None, None)
    ensures chat.chatHistory[1] == Message(User, "人生が不安です", None, None)
    ensures chat.chatHistory[2].text == wisdom("dogen", Suffering).response
    ensures chat.stored == Some(Stored(Some("dogen"), Some(chat.chatHistory)))
  {
    chat := GreetedByDogen(wisdom, greeting);
    QuestionTrims();
    var _ := chat.SendMessage(" 人生が不安です\n");
    assert chat.pendingReplies == ["人生が不安です"];
    AnxiousAboutLife();
    var _ := chat.FireReply(0);
  }

  /** Loading the saved state into a fresh page gives back the same host and history. */
  method ConversationSurvivesReload(wisdom: (string, Topic) -> Wisdom, greeting: string -> string)
    returns (before: seq<Message>, after: seq<Message>)
    ensures |before| == 3 && after == before
  {
    var chat := DogenConversation(wisdom, greeting);
    before := chat.chatHistory;
    var page := new Chat(wisdom, greeting, chat.stored);
    page.LoadState(page.stored);
    after := page.chatHistory;
  }
}
