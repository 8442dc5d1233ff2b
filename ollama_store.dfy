/** The Ollama store (src/lib/stores/ollama.ts): the connection flag, the
    model list, the selected model with its persisted name under
    "aipad_ollama_model", the chat history, and the chat helper that uses the
    selected model. The health check and the model listing are parameters;
    localStorage is the `stored` field. */
module Ollama {
  import opened Common
  import opened Types
  import opened Sorting
  import opened OllamaService

  const ModelKey: string := "aipad_ollama_model"

  /** The comparator `(a, b) => b.size - a.size`: a may precede b when it is at least as large. */
  function BiggerFirst(a: OllamaModel, b: OllamaModel): bool {
    b.size - a.size <= 0
  }

  lemma BiggerFirstIsTotalPreorder()
    ensures TotalPreorder(BiggerFirst)
  {
  }

  /** `stored && models.find((m) => m.name === stored)`. */
  predicate StoredAvailable(models: seq<OllamaModel>, stored: Option<string>) {
    stored.Some? && stored.value != "" && exists i :: 0 <= i < |models| && models[i].name == stored.value
  }

  /** The model list the store ends up holding, the selected name and the persisted name. */
  datatype Selection = Selection(models: seq<OllamaModel>, selected: string, stored: Option<string>)

  /** The auto-selection of checkOllamaConnection. */
  function Select(models: seq<OllamaModel>, stored: Option<string>, selected: string): Selection {
    if StoredAvailable(models, stored) then Selection(models, stored.value, stored)
    else if |models| > 0 then
      var sorted := SortBy(models, BiggerFirst);
      SortByLength(models, BiggerFirst);
      Selection(sorted, sorted[0].name, Some(sorted[0].name))
    else Selection(models, selected, stored)
  }

  /** A stored name that is among the models is selected; otherwise a largest
      model is selected and its name persisted, with the list (sorted in place)
      now ordered by size, largest first; with no models nothing changes. */
  lemma SelectSpec(models: seq<OllamaModel>, stored: Option<string>, selected: string)
    ensures var r := Select(models, stored, selected);
            && multiset(r.models) == multiset(models)
            && (StoredAvailable(models, stored) ==> r.selected == stored.value && r.stored == stored && r.models == models)
            && (!StoredAvailable(models, stored) && |models| > 0 ==>
                  && |r.models| == |models|
                  && r.selected == r.models[0].name && r.stored == Some(r.selected)
                  && r.models[0] in models
                  && (forall m :: m in models ==> m.size <= r.models[0].size)
                  && (forall i, j :: 0 <= i < j < |r.models| ==> r.models[i].size >= r.models[j].size))
            && (!StoredAvailable(models, stored) && models == [] ==> r == Selection(models, selected, stored))
  {
    if !StoredAvailable(models, stored) && |models| > 0 {
      LargestFirst(models);
    }
  }

  lemma SortedBySize(models: seq<OllamaModel>)
    ensures multiset(SortBy(models, BiggerFirst)) == multiset(models)
    ensures SortedBy(SortBy(models, BiggerFirst), BiggerFirst)
  {
    BiggerFirstIsTotalPreorder();
    SortByCorrect(models, BiggerFirst);
  }

  /** The sort by the comparator puts the models in size order, largest first. */
  lemma LargestFirst(models: seq<OllamaModel>)
    requires |models| > 0
    ensures var sorted := SortBy(models, BiggerFirst);
            && multiset(sorted) == multiset(models) && |sorted| == |models|
            && sorted[0] in models
            && (forall m :: m in models ==> m.size <= sorted[0].size)
            && (forall i, j :: 0 <= i < j < |sorted| ==> sorted[i].size >= sorted[j].size)
  {
    SortedBySize(models);
    SortByLength(models, BiggerFirst);
    SizeOrder(models, SortBy(models, BiggerFirst));
  }

  lemma SizeOrder(models: seq<OllamaModel>, sorted: seq<OllamaModel>)
    requires |sorted| == |models| > 0
    requires multiset(sorted) == multiset(models) && SortedBy(sorted, BiggerFirst)
    ensures sorted[0] in models
    ensures forall m :: m in models ==> m.size <= sorted[0].size
    ensures forall i, j :: 0 <= i < j < |sorted| ==> sorted[i].size >= sorted[j].size
  {
    assert sorted[0] in multiset(models);
    forall i, j | 0 <= i < j < |sorted|
      ensures sorted[i].size >= sorted[j].size
    {
      assert BiggerFirst(sorted[i], sorted[j]);
    }
    forall m | m in models
      ensures m.size <= sorted[0].size
    {
      assert m in multiset(sorted);
      assert m in sorted;
      var k :| 0 <= k < |sorted| && sorted[k] == m;
      if k > 0 {
        assert sorted[0].size >= sorted[k].size;
      }
    }
  }

  /** What chatWithOllama posts and returns for the selected model. */
  function ChatWith(selected: string, messages: seq<OllamaMessage>, send: Payload -> Reply): (seq<Payload>, Result<string, string>) {
    if selected == "" then ([], Failure("No model selected"))
    else
      var outcome := Chat(ChatOptions(selected, messages, false, []), send);
      match outcome.result
      case Success(message) => (outcome.sent, Success(message.content))
      case Failure(e) => (outcome.sent, Failure(e))
  }

  /** Without a selected model nothing is posted; with one, exactly one
      non-streaming payload for that model and without tools is posted, and the
      reply's content or the error comes back. */
  lemma ChatWithSpec(selected: string, messages: seq<OllamaMessage>, send: Payload -> Reply)
    ensures var (sent, r) := ChatWith(selected, messages, send);
            && (selected == "" ==> sent == [] && r == Failure("No model selected"))
            && (selected != "" ==>
                  && sent == [Payload(selected, messages, false, None)]
                  && var reply := send(sent[0]);
                     (reply.ok ==> r == Success(reply.message.content))
                     && (!reply.ok ==> r == Failure(ErrorText(reply.status, reply.text))))
  {
    if selected != "" {
      ChatSpec(ChatOptions(selected, messages, false, []), send);
    }
  }

  class OllamaStore {
    var connected: bool
    var models: seq<OllamaModel>
    var selectedModel: string
    var chatHistory: seq<ChatMessage>
    /** localStorage["aipad_ollama_model"]. */
    var stored: Option<string>

    constructor (stored: Option<string>)
      ensures !connected && models == [] && selectedModel == "" && chatHistory == [] && this.stored == stored
    {
      connected := false;
      models := [];
      selectedModel := "";
      chatHistory := [];
      this.stored := stored;
    }

    /** checkOllamaConnection, given the health check's answer and the listed models. */
    method CheckOllamaConnection(healthy: bool, listed: seq<OllamaModel>) returns (result: bool)
      modifies this
      ensures result == healthy && connected == healthy && chatHistory == old(chatHistory)
      ensures !healthy ==> models == old(models) && selectedModel == old(selectedModel) && stored == old(stored)
      ensures healthy ==> Selection(models, selectedModel, stored) == Select(listed, old(stored), old(selectedModel))
    {
      connected := healthy;
      result := healthy;
      if !healthy {
        return;
      }
      models := listed;
      var found := false;
      if stored.Some? && stored.value != "" {
        found := ContainsName(listed, stored.value);
      }
      if found {
        selectedModel := stored.value;
      } else if |listed| > 0 {
        models := SortBy(listed, BiggerFirst);
        SortByLength(listed, BiggerFirst);
        selectedModel := models[0].name;
        stored := Some(selectedModel);
      }
    }

    method SetModel(model: string)
      modifies this
      ensures selectedModel == model && stored == Some(model)
      ensures connected == old(connected) && models == old(models) && chatHistory == old(chatHistory)
    {
      selectedModel := model;
      stored := Some(model);
    }

    method AddChatMessage(msg: ChatMessage)
      modifies this
      ensures chatHistory == old(chatHistory) + [msg]
      ensures connected == old(connected) && models == old(models)
      ensures selectedModel == old(selectedModel) && stored == old(stored)
    {
      chatHistory := chatHistory + [msg];
    }

    method ClearChatHistory()
      modifies this
      ensures chatHistory == []
      ensures connected == old(connected) && models == old(models)
      ensures selectedModel == old(selectedModel) && stored == old(stored)
    {
      chatHistory := [];
    }

    method ChatWithOllama(messages: seq<OllamaMessage>, send: Payload -> Reply)
      returns (sent: seq<Payload>, r: Result<string, string>)
      ensures (sent, r) == ChatWith(selectedModel, messages, send)
    {
      if selectedModel == "" {
        return [], Failure("No model selected");
      }
      var outcome := Chat(ChatOptions(selectedModel, messages, false, []), send);
      sent := outcome.sent;
      if outcome.result.Success? {
        r := Success(outcome.result.value.content);
      } else {
        r := Failure(outcome.result.error);
      }
    }
  }

  /** `models.find((m) => m.name === name) !== undefined`, as a linear search. */
  method ContainsName(models: seq<OllamaModel>, name: string) returns (found: bool)
    ensures found <==> exists i :: 0 <= i < |models| && models[i].name == name
  {
    for i := 0 to |models|
      invariant forall k :: 0 <= k < i ==> models[k].name != name
    {
      if models[i].name == name {
        return true;
      }
    }
    return false;
  }
}
