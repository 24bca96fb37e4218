/** The application settings slice: the image providers and the active one,
    the chat model's provider, key and model, and the admin password with its
    session flag. Every change but the admin session is written to storage. */
module Settings {
  import opened Common
  import opened LlmService

  datatype ImageProviderType = HuggingFace | Pollinations | Placeholder

  datatype ImageProviderConfig = ImageProviderConfig(
    id: ImageProviderType,
    title: string,
    description: string,
    requiresApiKey: bool,
    apiKey: Option<string>,
    model: Option<string>,
    baseUrl: Option<string>,
    enabled: bool)

  /** A Partial<ImageProviderConfig>. */
  datatype ProviderPatch = ProviderPatch(
    id: Option<ImageProviderType>,
    title: Option<string>,
    description: Option<string>,
    requiresApiKey: Option<bool>,
    apiKey: Field<string>,
    model: Field<string>,
    baseUrl: Field<string>,
    enabled: Option<bool>)

  /** Record<ImageProviderType, ImageProviderConfig> */
  datatype ProviderTable = ProviderTable(
    huggingface: ImageProviderConfig,
    pollinations: ImageProviderConfig,
    placeholder: ImageProviderConfig)
  {
    function Get(id: ImageProviderType): ImageProviderConfig {
      match id
      case HuggingFace => huggingface
      case Pollinations => pollinations
      case Placeholder => placeholder
    }

    function Set(id: ImageProviderType, c: ImageProviderConfig): (t: ProviderTable)
      ensures t.Get(id) == c
      ensures forall other :: other != id ==> t.Get(other) == Get(other)
    {
      match id
      case HuggingFace => this.(huggingface := c)
      case Pollinations => this.(pollinations := c)
      case Placeholder => this.(placeholder := c)
    }
  }

  datatype AppSettings = AppSettings(
    activeImageProvider: ImageProviderType,
    imageProviders: ProviderTable,
    llmProvider: LlmProvider,
    llmApiKey: Option<string>,
    llmModel: Option<string>,
    adminPassword: string,
    isAdminAuthenticated: bool)

  /** A Partial<AppSettings> as read back from storage. */
  datatype PartialSettings = PartialSettings(
    activeImageProvider: Option<ImageProviderType>,
    imageProviders: Option<ProviderTable>,
    llmProvider: Option<LlmProvider>,
    llmApiKey: Field<string>,
    llmModel: Field<string>,
    adminPassword: Option<string>,
    isAdminAuthenticated: Option<bool>)

  const DefaultProviders := ProviderTable(
    ImageProviderConfig(HuggingFace, "HuggingFace",
      "Utilise FLUX.1-schnell ou Stable Diffusion via HuggingFace Inference API",
      true, Some(""), Some("black-forest-labs/FLUX.1-schnell"), None, true),
    ImageProviderConfig(Pollinations, "Pollinations.ai",
      "Generation IA via Pollinations (FLUX, Seedream, etc.) - API key requise",
      true, Some(""), Some("flux"), None, true),
    ImageProviderConfig(Placeholder, "Placeholder (Demo)",
      "Image placeholder thematique - aucune API requise, fonctionne hors-ligne",
      false, None, None, None, true))

  const DefaultPassword := "annigato2024"

  const DefaultSettings := AppSettings(Pollinations, DefaultProviders, Claude, Some(""), Some(""),
                                       DefaultPassword, false)

  // ---------------------------------------------------------------------
  // Merges

  /** `{ ...config, ...patch }` on one provider. */
  function MergedProvider(c: ImageProviderConfig, p: ProviderPatch): (r: ImageProviderConfig)
    ensures p.id.Some? ==> r.id == p.id.value
    ensures p.id.None? ==> r.id == c.id
    ensures p.title.Some? ==> r.title == p.title.value
    ensures p.title.None? ==> r.title == c.title
    ensures p.description.Some? ==> r.description == p.description.value
    ensures p.description.None? ==> r.description == c.description
    ensures p.requiresApiKey.Some? ==> r.requiresApiKey == p.requiresApiKey.value
    ensures p.requiresApiKey.None? ==> r.requiresApiKey == c.requiresApiKey
    ensures r.apiKey == Spread(c.apiKey, p.apiKey) && r.model == Spread(c.model, p.model)
    ensures r.baseUrl == Spread(c.baseUrl, p.baseUrl)
    ensures p.enabled.Some? ==> r.enabled == p.enabled.value
    ensures p.enabled.None? ==> r.enabled == c.enabled
  {
    ImageProviderConfig(
      if p.id.Some? then p.id.value else c.id,
      if p.title.Some? then p.title.value else c.title,
      if p.description.Some? then p.description.value else c.description,
      if p.requiresApiKey.Some? then p.requiresApiKey.value else c.requiresApiKey,
      Spread(c.apiKey, p.apiKey),
      Spread(c.model, p.model),
      Spread(c.baseUrl, p.baseUrl),
      if p.enabled.Some? then p.enabled.value else c.enabled)
  }

  /** `{ ...settings, ...stored }`: a shallow merge, so a stored provider
      table replaces the whole table. */
  function Overlaid(s: AppSettings, p: PartialSettings): (r: AppSettings)
    ensures p.activeImageProvider.Some? ==> r.activeImageProvider == p.activeImageProvider.value
    ensures p.activeImageProvider.None? ==> r.activeImageProvider == s.activeImageProvider
    ensures p.imageProviders.Some? ==> r.imageProviders == p.imageProviders.value
    ensures p.imageProviders.None? ==> r.imageProviders == s.imageProviders
    ensures p.llmProvider.Some? ==> r.llmProvider == p.llmProvider.value
    ensures p.llmProvider.None? ==> r.llmProvider == s.llmProvider
    ensures r.llmApiKey == Spread(s.llmApiKey, p.llmApiKey) && r.llmModel == Spread(s.llmModel, p.llmModel)
    ensures p.adminPassword.Some? ==> r.adminPassword == p.adminPassword.value
    ensures p.adminPassword.None? ==> r.adminPassword == s.adminPassword
    ensures p.isAdminAuthenticated.Some? ==> r.isAdminAuthenticated == p.isAdminAuthenticated.value
    ensures p.isAdminAuthenticated.None? ==> r.isAdminAuthenticated == s.isAdminAuthenticated
  {
    AppSettings(
      if p.activeImageProvider.Some? then p.activeImageProvider.value else s.activeImageProvider,
      if p.imageProviders.Some? then p.imageProviders.value else s.imageProviders,
      if p.llmProvider.Some? then p.llmProvider.value else s.llmProvider,
      Spread(s.llmApiKey, p.llmApiKey),
      Spread(s.llmModel, p.llmModel),
      if p.adminPassword.Some? then p.adminPassword.value else s.adminPassword,
      if p.isAdminAuthenticated.Some? then p.isAdminAuthenticated.value else s.isAdminAuthenticated)
  }

  // ---------------------------------------------------------------------
  // Storage

  /** loadSettings: the defaults overlaid by what storage holds, never with
      an admin session; nothing stored, or text that does not parse, gives
      the defaults. */
  function Load(stored: Option<string>, parse: string -> Option<PartialSettings>): (r: AppSettings)
    ensures !r.isAdminAuthenticated
    ensures !Truthy(stored) ==> r == DefaultSettings
    ensures Truthy(stored) && parse(stored.value).None? ==> r == DefaultSettings
    ensures Truthy(stored) && parse(stored.value).Some? ==>
              r == Overlaid(DefaultSettings, parse(stored.value).value).(isAdminAuthenticated := false)
  {
    if Truthy(stored) then
      match parse(stored.value)
      case Some(p) => Overlaid(DefaultSettings, p).(isAdminAuthenticated := false)
      case None => DefaultSettings
    else DefaultSettings
  }

  /** The record saveSettings writes: the settings without the admin session. */
  function Persisted(s: AppSettings): (r: AppSettings)
    ensures !r.isAdminAuthenticated
    ensures r.(isAdminAuthenticated := s.isAdminAuthenticated) == s
  {
    s.(isAdminAuthenticated := false)
  }

  /** What JSON.parse(JSON.stringify(s)) gives back: every key, except the
      optional ones that are undefined, which JSON drops. */
  function AsStored(s: AppSettings): PartialSettings {
    PartialSettings(
      Some(s.activeImageProvider), Some(s.imageProviders), Some(s.llmProvider),
      if s.llmApiKey.Some? then Present(s.llmApiKey) else Absent,
      if s.llmModel.Some? then Present(s.llmModel) else Absent,
      Some(s.adminPassword), Some(s.isAdminAuthenticated))
  }

  /** Saving and loading again gives back the settings without the admin
      session, when the JSON text round-trips. An undefined key or model
      comes back as the default's empty string. */
  lemma LoadAfterSave(s: AppSettings, stringify: AppSettings -> string,
                      parse: string -> Option<PartialSettings>)
    requires stringify(Persisted(s)) != ""
    requires parse(stringify(Persisted(s))) == Some(AsStored(Persisted(s)))
    ensures Load(Some(stringify(Persisted(s))), parse)
            == s.(isAdminAuthenticated := false,
                  llmApiKey := if s.llmApiKey.Some? then s.llmApiKey else Some(""),
                  llmModel := if s.llmModel.Some? then s.llmModel else Some(""))
  {
  }

  // ---------------------------------------------------------------------
  // The slice

  class SettingsStore {
    var activeImageProvider: ImageProviderType
    var imageProviders: ProviderTable
    var llmProvider: LlmProvider
    var llmApiKey: Option<string>
    var llmModel: Option<string>
    var adminPassword: string
    var isAdminAuthenticated: bool
    /** The text stored under the settings key, if any. */
    var storage: Option<string>
    /** JSON.stringify on settings records. */
    const stringify: AppSettings -> string

    function Current(): AppSettings
      reads this
    {
      AppSettings(activeImageProvider, imageProviders, llmProvider, llmApiKey, llmModel,
                  adminPassword, isAdminAuthenticated)
    }

    /** The initial state is whatever storage held, loaded. */
    constructor (stored: Option<string>, parse: string -> Option<PartialSettings>,
                 stringify: AppSettings -> string)
      ensures Current() == Load(stored, parse) && storage == stored
      ensures this.stringify == stringify
    {
      var s := Load(stored, parse);
      activeImageProvider, imageProviders, llmProvider := s.activeImageProvider, s.imageProviders, s.llmProvider;
      llmApiKey, llmModel := s.llmApiKey, s.llmModel;
      adminPassword, isAdminAuthenticated := s.adminPassword, s.isAdminAuthenticated;
      storage := stored;
      this.stringify := stringify;
    }

    /** saveSettings */
    method Save()
      modifies this`storage
      ensures storage == Some(stringify(Persisted(Current())))
    {
      storage := Some(stringify(Persisted(Current())));
    }

    /** The session opens only on the right password; a wrong one changes
        nothing. */
    method AdminLogin(password: string)
      modifies this`isAdminAuthenticated
      ensures isAdminAuthenticated == (old(isAdminAuthenticated) || password == adminPassword)
      ensures password == adminPassword ==> isAdminAuthenticated
    {
      if password == adminPassword {
        isAdminAuthenticated := true;
      }
    }

    method AdminLogout()
      modifies this`isAdminAuthenticated
      ensures !isAdminAuthenticated
    {
      isAdminAuthenticated := false;
    }

    method ChangeAdminPassword(password: string)
      modifies this`adminPassword, this`storage
      ensures adminPassword == password
      ensures storage == Some(stringify(Persisted(Current())))
    {
      adminPassword := password;
      Save();
    }

    method SetActiveImageProvider(id: ImageProviderType)
      modifies this`activeImageProvider, this`storage
      ensures activeImageProvider == id
      ensures storage == Some(stringify(Persisted(Current())))
    {
      activeImageProvider := id;
      Save();
    }

    /** Merges the patch into one provider; the others keep their settings. */
    method UpdateImageProvider(id: ImageProviderType, patch: ProviderPatch)
      modifies this`imageProviders, this`storage
      ensures imageProviders.Get(id) == MergedProvider(old(imageProviders).Get(id), patch)
      ensures forall other :: other != id ==> imageProviders.Get(other) == old(imageProviders).Get(other)
      ensures storage == Some(stringify(Persisted(Current())))
    {
      imageProviders := imageProviders.Set(id, MergedProvider(imageProviders.Get(id), patch));
      Save();
    }

    method SetLlmProvider(p: LlmProvider)
      modifies this`llmProvider, this`storage
      ensures llmProvider == p
      ensures storage == Some(stringify(Persisted(Current())))
    {
      llmProvider := p;
      Save();
    }

    method SetLlmApiKey(key: string)
      modifies this`llmApiKey, this`storage
      ensures llmApiKey == Some(key)
      ensures storage == Some(stringify(Persisted(Current())))
    {
      llmApiKey := Some(key);
      Save();
    }

    method SetLlmModel(model: string)
      modifies this`llmModel, this`storage
      ensures llmModel == Some(model)
      ensures storage == Some(stringify(Persisted(Current())))
    {
      llmModel := Some(model);
      Save();
    }

    /** Back to the defaults, with the stored key removed. */
    method ResetSettings()
      modifies this`activeImageProvider, this`imageProviders, this`llmProvider, this`llmApiKey,
               this`llmModel, this`adminPassword, this`isAdminAuthenticated, this`storage
      ensures Current() == DefaultSettings && storage == None
    {
      storage := None;
      activeImageProvider, imageProviders, llmProvider := Pollinations, DefaultProviders, Claude;
      llmApiKey, llmModel := Some(""), Some("");
      adminPassword, isAdminAuthenticated := DefaultPassword, false;
    }

    /** selectActiveProviderConfig */
    function ActiveProviderConfig(): (c: ImageProviderConfig)
      reads this
      ensures c == Current().imageProviders.Get(Current().activeImageProvider)
    {
      imageProviders.Get(activeImageProvider)
    }
  }

  /** The default table: every provider is enabled and listed under its own
      id, and only the placeholder needs no key. */
  lemma DefaultProvidersWellFormed()
    ensures forall id :: DefaultProviders.Get(id).id == id && DefaultProviders.Get(id).enabled
    ensures forall id :: !DefaultProviders.Get(id).requiresApiKey <==> id == Placeholder
  {
  }
}
