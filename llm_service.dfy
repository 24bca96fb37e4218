/** The chat assistant's language-model service: the module-level
    configuration, the choice between the remote provider and the local mock,
    the mock's scripted replies, and the extraction of the fenced choices
    block from a reply. */
module LlmService {
  import opened Common

  datatype LlmProvider = Claude | OpenAI | Ollama {
    function Key(): string {
      match this
      case Claude => "claude"
      case OpenAI => "openai"
      case Ollama => "ollama"
    }
  }

  datatype LlmConfig = LlmConfig(
    provider: LlmProvider,
    apiKey: Option<string>,
    baseUrl: Option<string>,
    model: Option<string>)

  /** A Partial<LLMConfig>; the optional keys may be present and undefined. */
  datatype ConfigPatch = ConfigPatch(
    provider: Option<LlmProvider>,
    apiKey: Field<string>,
    baseUrl: Field<string>,
    model: Field<string>)

  const NoPatch := ConfigPatch(None, Absent, Absent, Absent)

  datatype Role = SystemRole | UserRole | AssistantRole

  datatype LlmMessage = LlmMessage(role: Role, content: string)

  const DefaultModel := "claude-sonnet-4-20250514"
  const DefaultConfig := LlmConfig(Claude, None, None, Some(DefaultModel))

  // ---------------------------------------------------------------------
  // Configuration

  /** `{ ...config, ...patch }` */
  function Patched(config: LlmConfig, patch: ConfigPatch): (r: LlmConfig)
    ensures r.provider == if patch.provider.Some? then patch.provider.value else config.provider
    ensures r.apiKey == Spread(config.apiKey, patch.apiKey)
    ensures r.baseUrl == Spread(config.baseUrl, patch.baseUrl)
    ensures r.model == Spread(config.model, patch.model)
  {
    LlmConfig(
      if patch.provider.Some? then patch.provider.value else config.provider,
      Spread(config.apiKey, patch.apiKey),
      Spread(config.baseUrl, patch.baseUrl),
      Spread(config.model, patch.model))
  }

  /** An empty patch changes nothing, and a patch applied twice is applied once. */
  lemma PatchedIdempotent(config: LlmConfig, patch: ConfigPatch)
    ensures Patched(config, NoPatch) == config
    ensures Patched(Patched(config, patch), patch) == Patched(config, patch)
  {
  }

  /** The service's module-level configuration. */
  class LlmService {
    var currentConfig: LlmConfig
    /** The system prompt put first in every remote request. */
    const systemPrompt: string

    constructor ()
      ensures currentConfig == DefaultConfig && systemPrompt == SystemPrompt
    {
      currentConfig := DefaultConfig;
      systemPrompt := SystemPrompt;
    }

    method SetLlmConfig(patch: ConfigPatch)
      modifies this`currentConfig
      ensures currentConfig == Patched(old(currentConfig), patch)
    {
      currentConfig := Patched(currentConfig, patch);
    }

    /** A copy of the configuration; the copy cannot alias the stored one. */
    method GetLlmConfig() returns (c: LlmConfig)
      ensures c == currentConfig
    {
      c := currentConfig;
    }

    /** sendChatMessage against this service's configuration. */
    method SendChatMessage(messages: seq<LlmMessage>, patch: Option<ConfigPatch>,
                           remote: (seq<LlmMessage>, LlmConfig) -> Option<string>)
      returns (reply: Option<string>)
      ensures reply == ChatReply(currentConfig, systemPrompt, patch, messages, remote)
    {
      var config := EffectiveConfig(currentConfig, patch);
      var fullMessages := [LlmMessage(SystemRole, systemPrompt)] + messages;
      if Truthy(config.apiKey) {
        reply := CallProvider(fullMessages, config, remote);
      } else {
        reply := Some(MockResponse(messages));
      }
    }
  }

  /** A call's patch, when given, is spread over the current configuration
      for that call only. */
  function EffectiveConfig(current: LlmConfig, patch: Option<ConfigPatch>): (r: LlmConfig)
    ensures patch.None? ==> r == current
    ensures patch.Some? ==> r == Patched(current, patch.value)
    ensures !Truthy(current.apiKey) && (patch.None? || patch.value.apiKey.Absent?) ==> !Truthy(r.apiKey)
  {
    if patch.Some? then Patched(current, patch.value) else current
  }

  function NonSystem(messages: seq<LlmMessage>): (r: seq<LlmMessage>)
    ensures forall m :: m in r <==> m in messages && m.role != SystemRole
  {
    if |messages| == 0 then []
    else
      var init := NonSystem(messages[..|messages| - 1]);
      var last := messages[|messages| - 1];
      assert forall m :: m in messages <==> m in messages[..|messages| - 1] || m == last;
      if last.role != SystemRole then init + [last] else init
  }

  /** The filter works message by message: filtering a list split in two
      filters each half, so the kept messages stay in order. */
  lemma {:induction false} NonSystemAppend(a: seq<LlmMessage>, b: seq<LlmMessage>)
    ensures NonSystem(a + b) == NonSystem(a) + NonSystem(b)
    decreases |b|
  {
    if |b| > 0 {
      var n := |b| - 1;
      assert (a + b)[..|a + b| - 1] == a + b[..n];
      NonSystemAppend(a, b[..n]);
    } else {
      assert a + b == a;
    }
  }

  /** The remote providers are reached through `remote` (None when the request
      fails); any other provider falls back to the mock on the non-system
      messages. */
  function CallProvider(fullMessages: seq<LlmMessage>, config: LlmConfig,
                        remote: (seq<LlmMessage>, LlmConfig) -> Option<string>): (r: Option<string>)
    ensures config.provider != Ollama ==> r == remote(fullMessages, config)
    ensures config.provider == Ollama ==> r == Some(MockResponse(NonSystem(fullMessages)))
  {
    match config.provider
    case Claude => remote(fullMessages, config)
    case OpenAI => remote(fullMessages, config)
    case Ollama => Some(MockResponse(NonSystem(fullMessages)))
  }

  /** sendChatMessage: the system prompt `system` goes first; a truthy api key
      routes to the provider, anything else to the mock. */
  function ChatReply(current: LlmConfig, system: string, patch: Option<ConfigPatch>, messages: seq<LlmMessage>,
                     remote: (seq<LlmMessage>, LlmConfig) -> Option<string>): (r: Option<string>)
    ensures r.None? ==> Truthy(EffectiveConfig(current, patch).apiKey)
                        && EffectiveConfig(current, patch).provider != Ollama
  {
    var config := EffectiveConfig(current, patch);
    if Truthy(config.apiKey) then CallProvider([LlmMessage(SystemRole, system)] + messages, config, remote)
    else Some(MockResponse(messages))
  }

  /** Which way a reply goes: without a truthy key the mock answers whatever
      `remote` would do; with one, the remote providers get the system prompt
      followed by the messages, and Ollama gets the mock on the messages
      without any system entries. */
  lemma ChatReplyRouting(current: LlmConfig, system: string, patch: Option<ConfigPatch>, messages: seq<LlmMessage>,
                         remote: (seq<LlmMessage>, LlmConfig) -> Option<string>)
    ensures var config := EffectiveConfig(current, patch);
            && (!Truthy(config.apiKey) ==> ChatReply(current, system, patch, messages, remote) == Some(MockResponse(messages)))
            && (Truthy(config.apiKey) && config.provider != Ollama ==>
                  ChatReply(current, system, patch, messages, remote)
                  == remote([LlmMessage(SystemRole, system)] + messages, config))
            && (Truthy(config.apiKey) && config.provider == Ollama ==>
                  ChatReply(current, system, patch, messages, remote) == Some(MockResponse(NonSystem(messages))))
  {
    NonSystemCons(LlmMessage(SystemRole, system), messages);
  }

  lemma {:induction false} NonSystemCons(m: LlmMessage, messages: seq<LlmMessage>)
    requires m.role == SystemRole
    ensures NonSystem([m] + messages) == NonSystem(messages)
    decreases |messages|
  {
    if |messages| == 0 {
      assert [m] + messages == [m];
      assert [m][..0] == [];
    } else {
      var n := |messages| - 1;
      assert ([m] + messages)[..n + 1] == [m] + messages[..n];
      NonSystemCons(m, messages[..n]);
    }
  }

  // ---------------------------------------------------------------------
  // The mock

  const ThemeQuestion :=
    "Super ! Tu veux creer " + "un gateau genial ! " + "Dis-moi, quel theme tu " +
    "aimerais ? Par exemple " + ": licorne, " + "super-heros, " + "princesse, pirate, " +
    "espace, jungle, ocean " + "ou arc-en-ciel ?"
  const UnicornReply :=
    "Un gateau licorne, " + "quelle super idee ! Et " + "quelle saveur tu " +
    "preferes ? Vanille, " + "chocolat, fraise ou " + "autre chose ?"
  const ChocolateReply :=
    "Miam, du chocolat ! Et " + "quelles decorations tu " + "veux ? Des etoiles en " +
    "sucre, des vermicelles " + "colores, de la " + "chantilly ?"
  const VanillaReply :=
    "La vanille, c'est " + "delicieux ! Et quelles " + "decorations tu " + "aimerais ? Des " +
    "etoiles, des fleurs en " + "sucre, des vermicelles " + "?"
  const StrawberryReply :=
    "La fraise, super choix " + "! Quelles decorations " + "tu veux ajouter sur " + "ton gateau ?"
  const ColorsQuestion :=
    "Genial ! Quelles " + "couleurs tu veux pour " + "ton gateau ? Tu peux " +
    "en choisir jusqu'a 3 : " + "rose, bleu, violet, " + "vert, jaune..."
  const MessageQuestion :=
    "Tres joli ! Derniere " + "question : quel " + "message tu veux ecrire " +
    "sur le gateau ? Par " + "exemple \"Joyeux " + "Anniversaire\" ou autre " + "chose ?"
  const FallbackReply :=
    "Super ! Et sinon, quel " + "theme tu voudrais pour " + "ton gateau ? Licorne, " +
    "super-heros, " + "princesse, ou autre " + "chose ?"

  // No scripted reply but the summary holds a backtick. Each proof below
  // checks the literal pieces one at a time.

  predicate BacktickFree(s: string) {
    forall i | 0 <= i < |s| :: s[i] != '`'
  }

  lemma ThemeQuestionPlain()
    ensures '`' !in ThemeQuestion
  {
    assert BacktickFree("Super ! Tu veux creer ");
    assert BacktickFree("un gateau genial ! ");
    assert BacktickFree("Dis-moi, quel theme tu ");
    assert BacktickFree("aimerais ? Par exemple ");
    assert BacktickFree(": licorne, ");
    assert BacktickFree("super-heros, ");
    assert BacktickFree("princesse, pirate, ");
    assert BacktickFree("espace, jungle, ocean ");
    assert BacktickFree("ou arc-en-ciel ?");
  }

  lemma UnicornReplyPlain()
    ensures '`' !in UnicornReply
  {
    assert BacktickFree("Un gateau licorne, ");
    assert BacktickFree("quelle super idee ! Et ");
    assert BacktickFree("quelle saveur tu ");
    assert BacktickFree("preferes ? Vanille, ");
    assert BacktickFree("chocolat, fraise ou ");
    assert BacktickFree("autre chose ?");
  }

  lemma ChocolateReplyPlain()
    ensures '`' !in ChocolateReply
  {
    assert BacktickFree("Miam, du chocolat ! Et ");
    assert BacktickFree("quelles decorations tu ");
    assert BacktickFree("veux ? Des etoiles en ");
    assert BacktickFree("sucre, des vermicelles ");
    assert BacktickFree("colores, de la ");
    assert BacktickFree("chantilly ?");
  }

  lemma VanillaReplyPlain()
    ensures '`' !in VanillaReply
  {
    assert BacktickFree("La vanille, c'est ");
    assert BacktickFree("delicieux ! Et quelles ");
    assert BacktickFree("decorations tu ");
    assert BacktickFree("aimerais ? Des ");
    assert BacktickFree("etoiles, des fleurs en ");
    assert BacktickFree("sucre, des vermicelles ");
    assert BacktickFree("?");
  }

  lemma StrawberryReplyPlain()
    ensures '`' !in StrawberryReply
  {
    assert BacktickFree("La fraise, super choix ");
    assert BacktickFree("! Quelles decorations ");
    assert BacktickFree("tu veux ajouter sur ");
    assert BacktickFree("ton gateau ?");
  }

  lemma ColorsQuestionPlain()
    ensures '`' !in ColorsQuestion
  {
    assert BacktickFree("Genial ! Quelles ");
    assert BacktickFree("couleurs tu veux pour ");
    assert BacktickFree("ton gateau ? Tu peux ");
    assert BacktickFree("en choisir jusqu'a 3 : ");
    assert BacktickFree("rose, bleu, violet, ");
    assert BacktickFree("vert, jaune...");
  }

  lemma MessageQuestionPlain()
    ensures '`' !in MessageQuestion
  {
    assert BacktickFree("Tres joli ! Derniere ");
    assert BacktickFree("question : quel ");
    assert BacktickFree("message tu veux ecrire ");
    assert BacktickFree("sur le gateau ? Par ");
    assert BacktickFree("exemple \"Joyeux ");
    assert BacktickFree("Anniversaire\" ou autre ");
    assert BacktickFree("chose ?");
  }

  lemma FallbackReplyPlain()
    ensures '`' !in FallbackReply
  {
    assert BacktickFree("Super ! Et sinon, quel ");
    assert BacktickFree("theme tu voudrais pour ");
    assert BacktickFree("ton gateau ? Licorne, ");
    assert BacktickFree("super-heros, ");
    assert BacktickFree("princesse, ou autre ");
    assert BacktickFree("chose ?");
  }

  const SummaryIntro := "Parfait ! Voici ton gateau de reve :\n\n"
  const SummaryOutro := "\n\nTon gateau va etre magique !"

  /** The choices the scripted summary hands back, with the message in it. */
  function SummaryJson(message: string): string {
    SummaryJsonHead + message + "\"}"
  }

  const SummaryJsonHead :=
    "{\"theme\":\"unicorn\"," + "\"flavor\":\"vanilla\"," + "\"decorations\":[" +
    "\"stars\"," + "\"rainbow-sprinkles\"," + "\"whipped-cream\"]," + "\"colors\":[" +
    "\"pink\",\"purple\"]," + "\"message\":\""

  lemma SummaryJsonHeadPlain()
    ensures '`' !in SummaryJsonHead
  {
    assert BacktickFree("{\"theme\":\"unicorn\",");
    assert BacktickFree("\"flavor\":\"vanilla\",");
    assert BacktickFree("\"decorations\":[");
    assert BacktickFree("\"stars\",");
    assert BacktickFree("\"rainbow-sprinkles\",");
    assert BacktickFree("\"whipped-cream\"],");
    assert BacktickFree("\"colors\":[");
    assert BacktickFree("\"pink\",\"purple\"],");
    assert BacktickFree("\"message\":\"");
  }

  function SummaryReply(message: string): string {
    SummaryIntro + ChoicesOpen + SummaryJson(message) + ChoicesClose + SummaryOutro
  }

  function UserCount(messages: seq<LlmMessage>): (n: nat)
    ensures n <= |messages|
    ensures n == 0 <==> forall i :: 0 <= i < |messages| ==> messages[i].role != UserRole
  {
    if |messages| == 0 then 0
    else UserCount(messages[..|messages| - 1]) + (if messages[|messages| - 1].role == UserRole then 1 else 0)
  }

  /** The last message's content in lower case, or "" when there is none. */
  function LastLower(messages: seq<LlmMessage>): string {
    if |messages| == 0 then "" else ToLower(messages[|messages| - 1].content)
  }

  /** `keys[0] || keys[1] || ...` over String.prototype.includes. */
  predicate IncludesAny(s: string, keys: seq<string>) {
    exists k :: k in keys && Includes(s, k)
  }

  const UnicornKeys := ["licorne", "unicorn"]
  const ChocolateKeys := ["chocolat", "chocolate"]
  const VanillaKeys := ["vanille", "vanilla"]
  const StrawberryKeys := ["fraise", "strawberry"]
  const DecorationKeys := ["etoile", "vermicelle", "chantilly", "fleur"]
  const ColorKeys := ["rose", "bleu", "violet", "vert"]
  const WishKeys := ["anniversaire", "joyeux", "happy"]

  /** The scripted reply: the theme question on the first turn, then the
      first keyword group the last message matches, in a fixed order. */
  function MockResponse(messages: seq<LlmMessage>): (r: string)
    ensures UserCount(messages) <= 1 ==> r == ThemeQuestion
    ensures || r == ThemeQuestion || r == UnicornReply || r == ChocolateReply || r == VanillaReply
            || r == StrawberryReply || r == ColorsQuestion || r == MessageQuestion
            || r == SummaryReply(Capitalize(LastLower(messages))) || r == FallbackReply
  {
    var last := LastLower(messages);
    if UserCount(messages) <= 1 then ThemeQuestion
    else if IncludesAny(last, UnicornKeys) then UnicornReply
    else if IncludesAny(last, ChocolateKeys) then ChocolateReply
    else if IncludesAny(last, VanillaKeys) then VanillaReply
    else if IncludesAny(last, StrawberryKeys) then StrawberryReply
    else if IncludesAny(last, DecorationKeys) then ColorsQuestion
    else if IncludesAny(last, ColorKeys) then MessageQuestion
    else if IncludesAny(last, WishKeys) then SummaryReply(Capitalize(last))
    else FallbackReply
  }

  /** Until the child has sent a second message the reply is always the theme
      question, whatever was said. */
  lemma MockFirstTurn(messages: seq<LlmMessage>)
    requires UserCount(messages) <= 1
    ensures MockResponse(messages) == ThemeQuestion
    ensures ChoicesBlock(MockResponse(messages)) == None
  {
    ThemeQuestionPlain();
    NoBlockWithoutBacktick(ThemeQuestion);
  }

  /** The keyword groups in the order the mock tries them. */
  const KeywordGroups := [UnicornKeys, ChocolateKeys, VanillaKeys, StrawberryKeys, DecorationKeys, ColorKeys, WishKeys]

  /** The reply of keyword group `k`, and the fallback past the last group. */
  function GroupReply(k: nat, last: string): string {
    if k == 0 then UnicornReply
    else if k == 1 then ChocolateReply
    else if k == 2 then VanillaReply
    else if k == 3 then StrawberryReply
    else if k == 4 then ColorsQuestion
    else if k == 5 then MessageQuestion
    else if k == 6 then SummaryReply(Capitalize(last))
    else FallbackReply
  }

  /** Group `k` is the first group the text matches; `k` is the number of
      groups when none matches. */
  predicate FirstMatchingGroup(last: string, k: nat) {
    && k <= |KeywordGroups|
    && (k < |KeywordGroups| ==> IncludesAny(last, KeywordGroups[k]))
    && forall j :: 0 <= j < k ==> !IncludesAny(last, KeywordGroups[j])
  }

  /** The search for the first matching group, from group `j` on. */
  function FirstGroupFrom(last: string, j: nat): (k: nat)
    requires j <= |KeywordGroups|
    requires forall i :: 0 <= i < j ==> !IncludesAny(last, KeywordGroups[i])
    ensures FirstMatchingGroup(last, k)
    decreases |KeywordGroups| - j
  {
    if j == |KeywordGroups| || IncludesAny(last, KeywordGroups[j]) then j
    else FirstGroupFrom(last, j + 1)
  }

  /** At most one group is the first to match. */
  lemma FirstMatchingGroupUnique(last: string, k1: nat, k2: nat)
    requires FirstMatchingGroup(last, k1) && FirstMatchingGroup(last, k2)
    ensures k1 == k2
  {
  }

  /** After the first turn the groups are tried in order: the reply is the one
      of the first group the last message matches, or the fallback when none
      does. */
  lemma MockKeywordPriority(messages: seq<LlmMessage>, k: nat)
    requires UserCount(messages) > 1 && FirstMatchingGroup(LastLower(messages), k)
    ensures MockResponse(messages) == GroupReply(k, LastLower(messages))
  {
    var last := LastLower(messages);
    if k > 0 { assert !IncludesAny(last, KeywordGroups[0]); }
    if k > 1 { assert !IncludesAny(last, KeywordGroups[1]); }
    if k > 2 { assert !IncludesAny(last, KeywordGroups[2]); }
    if k > 3 { assert !IncludesAny(last, KeywordGroups[3]); }
    if k > 4 { assert !IncludesAny(last, KeywordGroups[4]); }
    if k > 5 { assert !IncludesAny(last, KeywordGroups[5]); }
    if k > 6 { assert !IncludesAny(last, KeywordGroups[6]); }
    if k < 7 { assert IncludesAny(last, KeywordGroups[k]); }
  }

  /** Only the summary carries a choices block; every other reply has no
      backtick at all. */
  lemma MockBlockOnlyInSummary(messages: seq<LlmMessage>)
    ensures ChoicesBlock(MockResponse(messages)).Some? ==>
              MockResponse(messages) == SummaryReply(Capitalize(LastLower(messages)))
  {
    var r := MockResponse(messages);
    if r != SummaryReply(Capitalize(LastLower(messages))) {
      ThemeQuestionPlain();
      UnicornReplyPlain();
      ChocolateReplyPlain();
      VanillaReplyPlain();
      StrawberryReplyPlain();
      ColorsQuestionPlain();
      MessageQuestionPlain();
      FallbackReplyPlain();
      NoBlockWithoutBacktick(r);
    }
  }

  /** The summary's block is exactly its JSON, as long as the echoed message
      holds no backtick, so extracting the choices parses that JSON. */
  lemma MockSummaryBlock<T>(message: string, parse: string -> Option<T>)
    requires '`' !in message
    ensures ChoicesBlock(SummaryReply(Capitalize(message))) == Some(SummaryJson(Capitalize(message)))
    ensures ExtractChoices(SummaryReply(Capitalize(message)), parse) == parse(SummaryJson(Capitalize(message)))
  {
    var m := Capitalize(message);
    assert '`' !in m by {
      if |message| > 0 {
        assert m == [UpperChar(message[0])] + message[1..];
        assert message[0] in message;
      }
    }
    var body := SummaryJson(m);
    SummaryJsonHeadPlain();
    assert '`' !in SummaryIntro;
    BlockOfFramed(SummaryIntro, body, SummaryOutro);
  }

  // ---------------------------------------------------------------------
  // The choices block: /```choices\n([\s\S]*?)\n```/

  const ChoicesOpen := "```choices\n"
  const ChoicesClose := "\n```"

  /** The captured group of the first match: the leftmost opening fence, then
      the shortest text up to the closing fence. */
  function ChoicesBlock(s: string): (r: Option<string>)
    ensures r.Some? ==> exists o, c :: FirstBlockAt(s, o, c) && r.value == s[o + |ChoicesOpen|..c]
  {
    var o := FindFrom(s, ChoicesOpen, 0);
    if o == -1 then None
    else
      var c := FindFrom(s, ChoicesClose, o + |ChoicesOpen|);
      if c == -1 then None
      else
        assert FirstBlockAt(s, o, c);
        Some(s[o + |ChoicesOpen|..c])
  }

  /** The opening fence at `o` is the leftmost one, and the closing fence at
      `c` is the nearest one after it. */
  predicate FirstBlockAt(s: string, o: int, c: int) {
    && OccursAt(s, ChoicesOpen, o) && (forall j :: 0 <= j < o ==> !OccursAt(s, ChoicesOpen, j))
    && o + |ChoicesOpen| <= c && OccursAt(s, ChoicesClose, c)
    && (forall j :: o + |ChoicesOpen| <= j < c ==> !OccursAt(s, ChoicesClose, j))
  }

  /** Whenever an opening fence is followed by a closing one, there is a match. */
  lemma ChoicesBlockComplete(s: string, o: int, c: int)
    requires OccursAt(s, ChoicesOpen, o) && o + |ChoicesOpen| <= c && OccursAt(s, ChoicesClose, c)
    ensures ChoicesBlock(s).Some?
  {
    var o0 := FindFrom(s, ChoicesOpen, 0);
    assert o0 != -1 && o0 <= o;
    var c0 := FindFrom(s, ChoicesClose, o0 + |ChoicesOpen|);
    assert c0 != -1;
  }

  /** extractChoicesFromResponse: an empty or missing group gives null, and so
      does a group `parse` rejects. */
  function ExtractChoices<T>(response: string, parse: string -> Option<T>): (r: Option<T>)
    ensures r.Some? ==> ChoicesBlock(response).Some? && ChoicesBlock(response).value != ""
                        && r == parse(ChoicesBlock(response).value)
    ensures ChoicesBlock(response).Some? && ChoicesBlock(response).value != "" ==>
              r == parse(ChoicesBlock(response).value)
  {
    var g := ChoicesBlock(response);
    if g.Some? && g.value != "" then parse(g.value) else None
  }

  lemma NoBlockWithoutBacktick(s: string)
    requires '`' !in s
    ensures ChoicesBlock(s) == None
  {
    NotFoundWithoutFirstChar(s, ChoicesOpen, 0);
  }

  /** A reply built as text, fence, body, fence, text gives back its body when
      neither the text before nor the body holds a backtick. */
  lemma BlockOfFramed(pre: string, body: string, post: string)
    requires '`' !in pre && '`' !in body
    ensures ChoicesBlock(pre + ChoicesOpen + body + ChoicesClose + post) == Some(body)
  {
    var s := pre + ChoicesOpen + body + ChoicesClose + post;
    var head := pre + ChoicesOpen;
    assert s == pre + (ChoicesOpen + body + ChoicesClose + post);
    FirstOpenAt(pre, ChoicesOpen + body + ChoicesClose + post);
    assert s == head + body + (ChoicesClose + post);
    FirstCloseAfter(head, body, ChoicesClose + post);
    assert s[|head|..|head| + |body|] == body;
  }

  /** The first opening fence is the one right after a text without backticks. */
  lemma FirstOpenAt(pre: string, rest: string)
    requires '`' !in pre && |ChoicesOpen| <= |rest| && rest[..|ChoicesOpen|] == ChoicesOpen
    ensures FindFrom(pre + rest, ChoicesOpen, 0) == |pre|
  {
    var s := pre + rest;
    var o := |pre|;
    assert s[o..o + |ChoicesOpen|] == rest[..|ChoicesOpen|];
    forall j | 0 <= j < o ensures !OccursAt(s, ChoicesOpen, j) {
      assert s[j] == pre[j];
      SliceAt(s, j, j + |ChoicesOpen|, 0);
    }
    FindFromFirst(s, ChoicesOpen, 0, o);
  }

  /** Searching after `head`, the first closing fence is the one right after
      a body without backticks. */
  lemma FirstCloseAfter(head: string, body: string, tail: string)
    requires '`' !in body && |ChoicesClose| <= |tail| && tail[..|ChoicesClose|] == ChoicesClose
    ensures FindFrom(head + body + tail, ChoicesClose, |head|) == |head| + |body|
  {
    var s := head + body + tail;
    var st := |head|;
    var c := st + |body|;
    assert s[c..c + |ChoicesClose|] == tail[..|ChoicesClose|];
    assert tail[0] == ChoicesClose[0] == '\n';
    forall j | st <= j < c ensures !OccursAt(s, ChoicesClose, j) {
      if j + 1 < c {
        assert s[j + 1] == body[j + 1 - st] && body[j + 1 - st] in body;
      } else {
        assert s[j + 1] == tail[0];
      }
      NoCloseAt(s, j);
    }
    FindFromFirst(s, ChoicesClose, st, c);
  }

  /** The closing fence cannot start where the next character is not a backtick. */
  lemma NoCloseAt(s: string, j: int)
    requires 0 <= j && j + 1 < |s| && s[j + 1] != '`'
    ensures !OccursAt(s, ChoicesClose, j)
  {
    assert ChoicesClose[1] == '`';
    SliceAt(s, j, j + |ChoicesClose|, 1);
  }

  lemma FindFromFirst(s: string, pat: string, from: nat, k: int)
    requires from <= k && OccursAt(s, pat, k)
    requires forall j :: from <= j < k ==> !OccursAt(s, pat, j)
    ensures FindFrom(s, pat, from) == k
  {
  }

  // ---------------------------------------------------------------------

  const SystemPrompt := @"Tu es Chef Patou, un assistant joyeux qui aide les enfants (6-13 ans) a creer leur gateau d'anniversaire de reve.

REGLE ABSOLUE : Pose UNE SEULE question a la fois. Ne pose JAMAIS 2 questions dans le meme message.

Suis cet ordre precis, etape par etape :
1. THEME - Demande quel univers l'enfant veut (propose 3-4 exemples max, pas tous)
2. SAVEUR - Demande quelle saveur (propose 3-4 exemples adaptes au theme choisi)
3. DECORATIONS - Demande quelles decorations (propose 3-4 qui vont avec le theme)
4. COULEURS - Demande quelles couleurs, max 3 (propose celles qui matchent le theme)
5. MESSAGE - Demande quel message ecrire sur le gateau
6. RESUME - Resume TOUS les choix de facon fun, puis genere le bloc JSON

A chaque etape :
- Reagis avec enthousiasme au choix precedent (1 phrase courte)
- Pose la question suivante (1 seule)
- Propose 3-4 options en les rendant amusantes
- Garde tes reponses COURTES (3-4 lignes max)

Si l'enfant donne plusieurs infos d'un coup, valide-les et passe a la prochaine etape manquante.

Reponds TOUJOURS en francais. Utilise des mots simples et des emojis.

OBLIGATION ABSOLUE a l'etape 6 (resume final) :
1. Presente les choix de facon amusante
2. PUIS ajoute OBLIGATOIREMENT le bloc JSON ci-dessous (le systeme en a besoin pour generer le gateau) :

```choices
{""theme"":""ID"",""flavor"":""ID"",""decorations"":[""ID1"",""ID2""],""colors"":[""ID1"",""ID2""],""message"":""Le texte du message""}
```

IMPORTANT : Le bloc JSON est OBLIGATOIRE dans ta reponse finale. Sans lui, le gateau ne peut pas etre genere. Utilise UNIQUEMENT les IDs de la liste ci-dessous (pas les noms en francais).

IDs valides (utilise EXACTEMENT ces IDs dans le JSON) :
- Themes : unicorn, superhero, princess, pirate, space, jungle, ocean, rainbow
- Saveurs : vanilla, chocolate, strawberry, caramel, lemon, coconut, blueberry, banana, redvelvet, pistachio
- Decorations : rainbow-sprinkles, chocolate-chips, stars, flowers, crown, animals, flag, rocket, candles-number, candles-sparkle, fruits-fresh, whipped-cream
- Couleurs : pink, blue, purple, green, yellow, orange, red, white, brown, turquoise"
}
