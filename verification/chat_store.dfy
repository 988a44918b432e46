/**
 * The client-side chat store: a list of chats, newest first, the id of the active one, the
 * plan and model chosen, and the user's prompt templates. Each action replaces part of the state.
 */
module ChatStore {
  import opened Wrappers
  import opened Text

  datatype Role = UserRole | AiRole

  /** `Message` (the optional timestamp is not modelled). */
  datatype Message = Message(role: Role, content: string)

  datatype Chat = Chat(id: string, title: string, messages: seq<Message>)

  datatype ChatPlan = FreePlan | PlusPlan | ProPlan

  datatype ModelType = Gpt35 | Gpt4 | Dalle

  datatype PromptTemplate = PromptTemplate(name: string, prompt: string)

  // ---------------------------------------------------------------------------------------
  // The list operations the actions use

  /** `state.chats.filter((c) => c.id !== id)` */
  function RemoveChat(chats: seq<Chat>, id: string): (kept: seq<Chat>)
    ensures forall c :: c in kept <==> c in chats && c.id != id
    ensures IsSubsequence(kept, chats)
  {
    FilterIsSubsequence((c: Chat) => c.id != id, chats);
    Filter((c: Chat) => c.id != id, chats)
  }

  /** `msg.content.substring(0, 20)`: at most the first twenty characters. */
  function Prefix20(s: string): (p: string)
    ensures |p| <= 20 && p <= s
    ensures |s| <= 20 ==> p == s
  {
    if |s| <= 20 then s else s[..20]
  }

  /** The chat after `msg` is added: appended, and the title taken from the first non-empty message. */
  function WithMessage(chat: Chat, msg: Message): (c: Chat)
  {
    chat.(messages := chat.messages + [msg],
          title := if |chat.messages| == 0 && msg.content != "" then Prefix20(msg.content) else chat.title)
  }

  /** The `map` of `addMessageToChat`. */
  function AddMessage(chats: seq<Chat>, chatId: string, msg: Message): (r: seq<Chat>)
    ensures |r| == |chats|
    ensures forall i :: 0 <= i < |chats| ==> r[i] == if chats[i].id == chatId then WithMessage(chats[i], msg) else chats[i]
  {
    seq(|chats|, i requires 0 <= i < |chats| => if chats[i].id == chatId then WithMessage(chats[i], msg) else chats[i])
  }

  /** The `map` of `resetChat`. */
  function ClearMessages(chats: seq<Chat>, id: string): (r: seq<Chat>)
    ensures |r| == |chats|
    ensures forall i :: 0 <= i < |chats| ==> r[i] == if chats[i].id == id then chats[i].(messages := []) else chats[i]
  {
    seq(|chats|, i requires 0 <= i < |chats| => if chats[i].id == id then chats[i].(messages := []) else chats[i])
  }

  /** The ids of the chats, in order. */
  function Ids(chats: seq<Chat>): (ids: seq<string>)
    ensures |ids| == |chats| && forall i :: 0 <= i < |chats| ==> ids[i] == chats[i].id
  {
    seq(|chats|, i requires 0 <= i < |chats| => chats[i].id)
  }

  /**
   * Adding a message changes only the chats with that id: their messages gain `msg` at the end,
   * and their title becomes the start of the message when it is their first, non-empty one.
   * The ids and their order stay as they were.
   */
  lemma AddMessageEffect(chats: seq<Chat>, chatId: string, msg: Message, i: nat)
    requires i < |chats|
    ensures Ids(AddMessage(chats, chatId, msg)) == Ids(chats)
    ensures chats[i].id == chatId ==>
      && AddMessage(chats, chatId, msg)[i].messages == chats[i].messages + [msg]
      && (|AddMessage(chats, chatId, msg)[i].title| <= 20 || AddMessage(chats, chatId, msg)[i].title == chats[i].title)
    ensures chats[i].id == chatId && |chats[i].messages| == 0 && 0 < |msg.content| <= 20 ==>
      AddMessage(chats, chatId, msg)[i].title == msg.content
    ensures chats[i].id != chatId ==> AddMessage(chats, chatId, msg)[i] == chats[i]
  {
  }

  /** `removeTemplate`: every template with that name goes, the others stay in order. */
  function RemoveTemplate(templates: seq<PromptTemplate>, name: string): (kept: seq<PromptTemplate>)
    ensures forall t :: t in kept <==> t in templates && t.name != name
    ensures IsSubsequence(kept, templates)
  {
    FilterIsSubsequence((t: PromptTemplate) => t.name != name, templates);
    Filter((t: PromptTemplate) => t.name != name, templates)
  }

  /** Removing a name that no template has changes nothing. */
  lemma RemoveAbsentTemplate(templates: seq<PromptTemplate>, name: string)
    requires forall k :: 0 <= k < |templates| ==> templates[k].name != name
    ensures RemoveTemplate(templates, name) == templates
  {
    FilterKeepsAll((t: PromptTemplate) => t.name != name, templates);
  }

  // ---------------------------------------------------------------------------------------
  // The store

  /** Some chat has this id. */
  predicate HasChat(chats: seq<Chat>, id: string) {
    exists k :: 0 <= k < |chats| && chats[k].id == id
  }

  class Store {
    var chats: seq<Chat>
    var activeChatId: Option<string>
    var userPlan: ChatPlan
    var model: ModelType
    var templates: seq<PromptTemplate>

    /** The active id is null or names a chat of the list. */
    predicate ActiveValid()
      reads this
    {
      activeChatId.Some? ==> HasChat(chats, activeChatId.value)
    }

    /** The initial state: one empty chat "chat-1", active; free plan, GPT-3.5, no templates. */
    constructor ()
      ensures chats == [Chat("chat-1", "New Chat", [])] && activeChatId == Some("chat-1")
      ensures userPlan == FreePlan && model == Gpt35 && templates == []
      ensures ActiveValid()
    {
      chats := [Chat("chat-1", "New Chat", [])];
      activeChatId := Some("chat-1");
      userPlan := FreePlan;
      model := Gpt35;
      templates := [];
      new;
      assert chats[0].id == "chat-1";
    }

    method SetUserPlan(plan: ChatPlan)
      modifies this
      ensures userPlan == plan
      ensures chats == old(chats) && activeChatId == old(activeChatId) && model == old(model) && templates == old(templates)
    {
      userPlan := plan;
    }

    method SetModel(m: ModelType)
      modifies this
      ensures model == m
      ensures chats == old(chats) && activeChatId == old(activeChatId) && userPlan == old(userPlan) && templates == old(templates)
    {
      model := m;
    }

    /**
     * `createChat`: a new empty chat, with id "chat-" followed by the current time in
     * milliseconds, goes in front and becomes active.
     */
    method CreateChat(nowMillis: nat)
      modifies this
      ensures chats == [Chat("chat-" + DecimalString(nowMillis), "New Chat", [])] + old(chats)
      ensures activeChatId == Some("chat-" + DecimalString(nowMillis))
      ensures userPlan == old(userPlan) && model == old(model) && templates == old(templates)
      ensures ActiveValid()
    {
      var newId := "chat-" + DecimalString(nowMillis);
      chats := [Chat(newId, "New Chat", [])] + chats;
      activeChatId := Some(newId);
      assert chats[0].id == newId;
    }

    /** `switchChat`: the active id becomes `id`, whether or not a chat has that id. */
    method SwitchChat(id: string)
      modifies this
      ensures activeChatId == Some(id)
      ensures chats == old(chats) && userPlan == old(userPlan) && model == old(model) && templates == old(templates)
      ensures ActiveValid() <==> HasChat(chats, id)
    {
      activeChatId := Some(id);
    }

    /**
     * `deleteChat`: every chat with that id goes; if the active chat went, the first remaining
     * chat becomes active, or none when the list is empty.
     */
    method DeleteChat(id: string)
      modifies this
      ensures chats == RemoveChat(old(chats), id)
      ensures old(activeChatId) == Some(id) && |chats| > 0 ==> activeChatId == Some(chats[0].id)
      ensures old(activeChatId) == Some(id) && |chats| == 0 ==> activeChatId.None?
      ensures old(activeChatId) != Some(id) ==> activeChatId == old(activeChatId)
      ensures userPlan == old(userPlan) && model == old(model) && templates == old(templates)
      ensures old(ActiveValid()) ==> ActiveValid()
    {
      var filtered := RemoveChat(chats, id);
      var newActive := activeChatId;
      if activeChatId == Some(id) {
        newActive := if |filtered| > 0 then Some(filtered[0].id) else None;
      }
      if newActive.Some? && newActive != Some(id) && newActive == activeChatId && HasChat(chats, newActive.value) {
        var k :| 0 <= k < |chats| && chats[k].id == newActive.value;
        assert chats[k] in filtered;
        var j :| 0 <= j < |filtered| && filtered[j] == chats[k];
      }
      chats := filtered;
      activeChatId := newActive;
    }

    /** `addMessageToChat` */
    method AddMessageToChat(chatId: string, msg: Message)
      modifies this
      ensures chats == AddMessage(old(chats), chatId, msg)
      ensures activeChatId == old(activeChatId) && userPlan == old(userPlan) && model == old(model) && templates == old(templates)
      ensures old(ActiveValid()) ==> ActiveValid()
    {
      var before := chats;
      chats := AddMessage(chats, chatId, msg);
      assert Ids(chats) == Ids(before);
      if activeChatId.Some? && HasChat(before, activeChatId.value) {
        var k :| 0 <= k < |before| && before[k].id == activeChatId.value;
        assert chats[k].id == Ids(chats)[k];
      }
    }

    /**
     * `resetChat`: the active chat's messages are cleared; with no active chat, or an empty id
     * (which JavaScript reads as false), nothing changes.
     */
    method ResetChat()
      modifies this
      ensures old(activeChatId).None? || old(activeChatId) == Some("") ==> chats == old(chats)
      ensures old(activeChatId).Some? && old(activeChatId).value != "" ==>
        chats == ClearMessages(old(chats), old(activeChatId).value)
      ensures activeChatId == old(activeChatId) && userPlan == old(userPlan) && model == old(model) && templates == old(templates)
      ensures old(ActiveValid()) ==> ActiveValid()
    {
      if activeChatId.Some? && activeChatId.value != "" {
        var before := chats;
        chats := ClearMessages(chats, activeChatId.value);
        if HasChat(before, activeChatId.value) {
          var k :| 0 <= k < |before| && before[k].id == activeChatId.value;
          assert chats[k].id == activeChatId.value;
        }
      }
    }

    /** `addTemplate`: appended, even when a template of that name exists. */
    method AddTemplate(t: PromptTemplate)
      modifies this
      ensures templates == old(templates) + [t]
      ensures chats == old(chats) && activeChatId == old(activeChatId) && userPlan == old(userPlan) && model == old(model)
    {
      templates := templates + [t];
    }

    method RemoveTemplateNamed(name: string)
      modifies this
      ensures templates == RemoveTemplate(old(templates), name)
      ensures chats == old(chats) && activeChatId == old(activeChatId) && userPlan == old(userPlan) && model == old(model)
    {
      templates := RemoveTemplate(templates, name);
    }
  }
}
