/** The chat assistant's send action: it records the child's message, asks
    the language-model service with the settings' provider, key and model,
    records the reply (or an apology when the call fails), and applies any
    choices the reply carries to the creation wizard. */
module ChatAssistant {
  import opened Common
  import opened Creation
  import L = LlmService
  import S = Settings

  const Apology := "Oups, j'ai un petit probleme. Peux-tu reessayer ?"

  /** The characters String.prototype.trim removes, restricted to ASCII. */
  predicate IsSpace(c: char) {
    c == ' ' || c == '\t' || c == '\n' || c == '\r' || c == '\U{B}' || c == '\U{C}'
  }

  /** String.prototype.trimStart: the removed prefix is all white space. */
  function TrimStart(s: string): (r: string)
    ensures |r| <= |s| && r == s[|s| - |r|..]
    ensures forall i :: 0 <= i < |s| - |r| ==> IsSpace(s[i])
    ensures r == [] || !IsSpace(r[0])
  {
    if |s| > 0 && IsSpace(s[0]) then TrimStart(s[1..]) else s
  }

  /** String.prototype.trimEnd: the removed suffix is all white space. */
  function TrimEnd(s: string): (r: string)
    ensures |r| <= |s| && r == s[..|r|]
    ensures forall i :: |r| <= i < |s| ==> IsSpace(s[i])
    ensures r == [] || !IsSpace(r[|r| - 1])
  {
    if |s| > 0 && IsSpace(s[|s| - 1]) then TrimEnd(s[..|s| - 1]) else s
  }

  /** String.prototype.trim: the slice of `s` left once the white space at
      both ends is removed. */
  function Trim(s: string): (r: string)
    ensures TrimmedAt(s, r, |s| - |TrimStart(s)|)
    ensures r == [] || (!IsSpace(r[0]) && !IsSpace(r[|r| - 1]))
  {
    var t := TrimStart(s);
    var r := TrimEnd(t);
    TrimSlice(s, t, r);
    r
  }

  /** A blank-led suffix of `s`, cut back to a prefix before blanks, sits
      in `s` between blanks. */
  lemma TrimSlice(s: string, t: string, r: string)
    requires |t| <= |s| && t == s[|s| - |t|..] && forall i :: 0 <= i < |s| - |t| ==> IsSpace(s[i])
    requires |r| <= |t| && r == t[..|r|] && forall i :: |r| <= i < |t| ==> IsSpace(t[i])
    ensures TrimmedAt(s, r, |s| - |t|)
  {
    var lo := |s| - |t|;
    assert r == s[lo..lo + |r|];
    forall i | lo + |r| <= i < |s| ensures IsSpace(s[i]) {
      assert s[i] == t[i - lo];
    }
  }

  /** `r` sits at `lo` in `s`, with only white space before and after it. */
  predicate TrimmedAt(s: string, r: string, lo: int) {
    && 0 <= lo <= |s| - |r| && r == s[lo..lo + |r|]
    && (forall i :: 0 <= i < lo ==> IsSpace(s[i]))
    && (forall i :: lo + |r| <= i < |s| ==> IsSpace(s[i]))
  }

  /** A text trims to nothing exactly when it is all white space: a blank
      text is never sent, and any other text is. */
  lemma TrimEmptyIffBlank(s: string)
    ensures Trim(s) == "" <==> forall i :: 0 <= i < |s| ==> IsSpace(s[i])
  {
    var r := Trim(s);
    var lo := |s| - |TrimStart(s)|;
    if r != "" {
      assert s[lo] == r[0];
    }
  }

  function AsLlmRole(r: ChatRole): L.Role {
    match r
    case UserRole => L.UserRole
    case AssistantRole => L.AssistantRole
  }

  /** The model's input: the earlier log, roles and contents only, then the
      new text as the user's turn. */
  function History(log: seq<ChatMessage>, text: string): (h: seq<L.LlmMessage>)
    ensures |h| == |log| + 1 && h[|log|] == L.LlmMessage(L.UserRole, text)
    ensures forall i :: 0 <= i < |log| ==> h[i].role == AsLlmRole(log[i].role) && h[i].content == log[i].content
  {
    seq(|log|, i requires 0 <= i < |log| => L.LlmMessage(AsLlmRole(log[i].role), log[i].content))
    + [L.LlmMessage(L.UserRole, text)]
  }

  function UserTurns(log: seq<ChatMessage>): (n: nat)
    ensures n <= |log|
    ensures n == 0 <==> forall i :: 0 <= i < |log| ==> log[i].role != UserRole
  {
    if |log| == 0 then 0
    else UserTurns(log[..|log| - 1]) + (if log[|log| - 1].role == UserRole then 1 else 0)
  }

  /** The history holds one more user turn than the log. */
  lemma {:induction false} HistoryUserCount(log: seq<ChatMessage>, text: string)
    ensures L.UserCount(History(log, text)) == UserTurns(log) + 1
    decreases |log|
  {
    var h := History(log, text);
    assert h[..|h| - 1] == seq(|log|, i requires 0 <= i < |log| => L.LlmMessage(AsLlmRole(log[i].role), log[i].content));
    MappedUserCount(log);
  }

  lemma {:induction false} MappedUserCount(log: seq<ChatMessage>)
    ensures L.UserCount(seq(|log|, i requires 0 <= i < |log| => L.LlmMessage(AsLlmRole(log[i].role), log[i].content)))
            == UserTurns(log)
    decreases |log|
  {
    if |log| > 0 {
      var n := |log| - 1;
      var m := seq(|log|, i requires 0 <= i < |log| => L.LlmMessage(AsLlmRole(log[i].role), log[i].content));
      assert m[..n] == seq(n, i requires 0 <= i < n => L.LlmMessage(AsLlmRole(log[..n][i].role), log[..n][i].content));
      MappedUserCount(log[..n]);
    }
  }

  /** The per-call configuration: the settings' provider, its key as is
      (even when undefined), and its model only when non-empty. */
  function CallPatch(provider: L.LlmProvider, apiKey: Option<string>, model: Option<string>): (p: L.ConfigPatch)
    ensures p.provider == Some(provider) && p.apiKey == Present(apiKey) && p.baseUrl.Absent?
    ensures Truthy(model) ==> p.model == Present(model)
    ensures !Truthy(model) ==> p.model == Present(None)
  {
    L.ConfigPatch(Some(provider), Present(apiKey), Absent, Present(if Truthy(model) then model else None))
  }

  /** The settings' key always overrides the service's: without a non-empty
      key in the settings the mock answers, whatever the service holds. */
  lemma SettingsKeyDecides(current: L.LlmConfig, system: string, provider: L.LlmProvider, apiKey: Option<string>,
                           model: Option<string>, history: seq<L.LlmMessage>,
                           remote: (seq<L.LlmMessage>, L.LlmConfig) -> Option<string>)
    ensures !Truthy(apiKey) ==>
              L.ChatReply(current, system, Some(CallPatch(provider, apiKey, model)), history, remote)
              == Some(L.MockResponse(history))
    ensures Truthy(apiKey) && provider != L.Ollama ==>
              L.ChatReply(current, system, Some(CallPatch(provider, apiKey, model)), history, remote)
              == remote([L.LlmMessage(L.SystemRole, system)] + history,
                        L.Patched(current, CallPatch(provider, apiKey, model)))
  {
    L.ChatReplyRouting(current, system, Some(CallPatch(provider, apiKey, model)), history, remote);
  }

  /** The first message of a chat, without a key, is answered by the theme
      question and changes no selection. */
  lemma FirstSendWithoutKey(log: seq<ChatMessage>, text: string, current: L.LlmConfig, system: string,
                            provider: L.LlmProvider, model: Option<string>,
                            remote: (seq<L.LlmMessage>, L.LlmConfig) -> Option<string>)
    requires UserTurns(log) == 0
    ensures L.ChatReply(current, system, Some(CallPatch(provider, Some(""), model)), History(log, text), remote)
            == Some(L.ThemeQuestion)
    ensures L.ChoicesBlock(L.ThemeQuestion) == None
  {
    SettingsKeyDecides(current, system, provider, Some(""), model, History(log, text), remote);
    HistoryUserCount(log, text);
    L.MockFirstTurn(History(log, text));
  }

  /** The message recorded for a call's outcome. */
  function ReplyMessage(id: string, reply: Option<string>, timestamp: int): (m: ChatMessage)
    ensures m.role == AssistantRole
    ensures reply.Some? ==> m.content == reply.value
    ensures reply.None? ==> m.content == Apology
  {
    ChatMessage(id, AssistantRole, if reply.Some? then reply.value else Apology, timestamp)
  }

  /** The choices applied after a reply: none after a failed call. */
  function ChoicesOf(reply: Option<string>, parse: string -> Option<AIChoices>): (c: Option<AIChoices>)
    ensures reply.None? ==> c.None?
    ensures c.Some? ==> reply.Some? && L.ChoicesBlock(reply.value).Some?
    ensures reply.Some? && L.ChoicesBlock(reply.value).Some? && L.ChoicesBlock(reply.value).value != "" ==>
              c == parse(L.ChoicesBlock(reply.value).value)
  {
    if reply.Some? then L.ExtractChoices(reply.value, parse) else None
  }

  /** handleSend. Ids and timestamps come from the clock and are passed in;
      `busy` is the component's loading flag; `remote` answers for the
      remote providers and `parse` stands for JSON.parse. */
  method HandleSend(creation: CreationStore, service: L.LlmService, settings: S.SettingsStore,
                    inputText: string, busy: bool, userId: string, replyId: string,
                    userTime: int, replyTime: int,
                    remote: (seq<L.LlmMessage>, L.LlmConfig) -> Option<string>,
                    parse: string -> Option<AIChoices>)
    returns (sent: bool)
    modifies creation`chatMessages, creation`selectedTheme, creation`selectedBase, creation`selectedShape,
             creation`selectedSize, creation`selectedFlavor, creation`selectedDecorations,
             creation`selectedColors, creation`cakeMessage
    ensures sent <==> Trim(inputText) != "" && !busy
    ensures !sent ==> creation.chatMessages == old(creation.chatMessages)
                      && creation.CurrentSelections() == old(creation.CurrentSelections())
    ensures sent ==>
              var text := Trim(inputText);
              var reply := L.ChatReply(service.currentConfig, service.systemPrompt,
                                       Some(CallPatch(settings.llmProvider, settings.llmApiKey, settings.llmModel)),
                                       History(old(creation.chatMessages), text), remote);
              var choices := ChoicesOf(reply, parse);
              && creation.chatMessages == old(creation.chatMessages)
                   + [ChatMessage(userId, UserRole, text, userTime), ReplyMessage(replyId, reply, replyTime)]
              && creation.CurrentSelections()
                 == (if choices.Some? then ApplyChoices(old(creation.CurrentSelections()), choices.value)
                     else old(creation.CurrentSelections()))
  {
    var text := Trim(inputText);
    if text == "" || busy {
      return false;
    }
    Exchange(creation, service, settings, text, userId, replyId, userTime, replyTime, remote, parse);
    return true;
  }

  /** The body of handleSend once the text passed the guard: one user turn
      and one reply are logged, and the reply's choices are applied. */
  method Exchange(creation: CreationStore, service: L.LlmService, settings: S.SettingsStore,
                  text: string, userId: string, replyId: string, userTime: int, replyTime: int,
                  remote: (seq<L.LlmMessage>, L.LlmConfig) -> Option<string>,
                  parse: string -> Option<AIChoices>)
    modifies creation`chatMessages, creation`selectedTheme, creation`selectedBase, creation`selectedShape,
             creation`selectedSize, creation`selectedFlavor, creation`selectedDecorations,
             creation`selectedColors, creation`cakeMessage
    ensures var reply := L.ChatReply(service.currentConfig, service.systemPrompt,
                                     Some(CallPatch(settings.llmProvider, settings.llmApiKey, settings.llmModel)),
                                     History(old(creation.chatMessages), text), remote);
            var choices := ChoicesOf(reply, parse);
            && creation.chatMessages == old(creation.chatMessages)
                 + [ChatMessage(userId, UserRole, text, userTime), ReplyMessage(replyId, reply, replyTime)]
            && creation.CurrentSelections()
               == (if choices.Some? then ApplyChoices(old(creation.CurrentSelections()), choices.value)
                   else old(creation.CurrentSelections()))
  {
    var reply := SendUserTurn(creation, service, settings, text, userId, userTime, remote);
    ghost var logged := creation.chatMessages;
    RecordReply(creation, reply, replyId, replyTime, parse);
    assert creation.chatMessages == logged + [ReplyMessage(replyId, reply, replyTime)];
  }

  /** The first half of handleSend: the user's message is logged, and the
      history before it plus the message goes to the service with the
      settings' provider, key and model. */
  method SendUserTurn(creation: CreationStore, service: L.LlmService, settings: S.SettingsStore,
                      text: string, userId: string, userTime: int,
                      remote: (seq<L.LlmMessage>, L.LlmConfig) -> Option<string>)
    returns (reply: Option<string>)
    modifies creation`chatMessages
    ensures creation.chatMessages == old(creation.chatMessages) + [ChatMessage(userId, UserRole, text, userTime)]
    ensures reply == L.ChatReply(service.currentConfig, service.systemPrompt,
                                 Some(CallPatch(settings.llmProvider, settings.llmApiKey, settings.llmModel)),
                                 History(old(creation.chatMessages), text), remote)
  {
    var history := History(creation.chatMessages, text);
    creation.AddChatMessage(ChatMessage(userId, UserRole, text, userTime));
    var patch := CallPatch(settings.llmProvider, settings.llmApiKey, settings.llmModel);
    reply := service.SendChatMessage(history, Some(patch), remote);
  }

  /** The second half of handleSend: the reply, or the apology after a failed
      call, is logged, and the choices the reply carries are applied. */
  method RecordReply(creation: CreationStore, reply: Option<string>, replyId: string, replyTime: int,
                     parse: string -> Option<AIChoices>)
    modifies creation`chatMessages, creation`selectedTheme, creation`selectedBase, creation`selectedShape,
             creation`selectedSize, creation`selectedFlavor, creation`selectedDecorations,
             creation`selectedColors, creation`cakeMessage
    ensures creation.chatMessages == old(creation.chatMessages) + [ReplyMessage(replyId, reply, replyTime)]
    ensures var choices := ChoicesOf(reply, parse);
            creation.CurrentSelections()
            == (if choices.Some? then ApplyChoices(old(creation.CurrentSelections()), choices.value)
                else old(creation.CurrentSelections()))
  {
    creation.AddChatMessage(ReplyMessage(replyId, reply, replyTime));
    var choices := ChoicesOf(reply, parse);
    if choices.Some? {
      creation.ApplyAIChoices(choices.value);
    }
  }
}
