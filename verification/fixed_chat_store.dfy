/**
 * The chat store of the later front-end: a single conversation, a count of free messages sent,
 * the plan and model chosen, and the prompt templates.
 */
module FixedChatStore {
  import opened ChatStore

  class Store {
    var messages: seq<Message>
    var freeMessageCount: int
    var userPlan: ChatPlan
    var model: ModelType
    var templates: seq<PromptTemplate>

    /** The initial state: no messages, none counted, free plan, GPT-3.5, no templates. */
    constructor ()
      ensures messages == [] && freeMessageCount == 0
      ensures userPlan == FreePlan && model == Gpt35 && templates == []
    {
      messages := [];
      freeMessageCount := 0;
      userPlan := FreePlan;
      model := Gpt35;
      templates := [];
    }

    method SetUserPlan(plan: ChatPlan)
      modifies this
      ensures userPlan == plan
      ensures messages == old(messages) && freeMessageCount == old(freeMessageCount)
      ensures model == old(model) && templates == old(templates)
    {
      userPlan := plan;
    }

    method SetModel(m: ModelType)
      modifies this
      ensures model == m
      ensures messages == old(messages) && freeMessageCount == old(freeMessageCount)
      ensures userPlan == old(userPlan) && templates == old(templates)
    {
      model := m;
    }

    /** `addMessage`: appended; the free-message count is a separate action and does not move. */
    method AddMessage(msg: Message)
      modifies this
      ensures messages == old(messages) + [msg]
      ensures freeMessageCount == old(freeMessageCount)
      ensures userPlan == old(userPlan) && model == old(model) && templates == old(templates)
    {
      messages := messages + [msg];
    }

    /** `resetChat`: the conversation is emptied, and the count of free messages is kept. */
    method ResetChat()
      modifies this
      ensures messages == []
      ensures freeMessageCount == old(freeMessageCount)
      ensures userPlan == old(userPlan) && model == old(model) && templates == old(templates)
    {
      messages := [];
    }

    method AddTemplate(t: PromptTemplate)
      modifies this
      ensures templates == old(templates) + [t]
      ensures messages == old(messages) && freeMessageCount == old(freeMessageCount)
      ensures userPlan == old(userPlan) && model == old(model)
    {
      templates := templates + [t];
    }

    /** `removeTemplate`: the same filter as the chat-list store's. */
    method RemoveTemplateNamed(name: string)
      modifies this
      ensures templates == RemoveTemplate(old(templates), name)
      ensures messages == old(messages) && freeMessageCount == old(freeMessageCount)
      ensures userPlan == old(userPlan) && model == old(model)
    {
      templates := RemoveTemplate(templates, name);
    }

    /** `incrementMessageCount` */
    method IncrementMessageCount()
      modifies this
      ensures freeMessageCount == old(freeMessageCount) + 1
      ensures messages == old(messages)
      ensures userPlan == old(userPlan) && model == old(model) && templates == old(templates)
    {
      freeMessageCount := freeMessageCount + 1;
    }
  }
}
