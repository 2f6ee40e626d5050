/** The Power Mode configuration form: its in-place list edits, the form-to-config builder,
    the save and validation gates, the language ordering and the model-name fallback. */
module PowerModeForm {
  import opened Common

  /** A `UUID`, compared only for equality (its `uuidString` is taken to be itself). */
  type Uuid = string

  datatype AppConfig = AppConfig(id: Uuid, bundleIdentifier: string, appName: string)
  datatype URLConfig = URLConfig(id: Uuid, url: string)

  datatype PowerModeConfig = PowerModeConfig(
    id: Uuid,
    name: string,
    emoji: string,
    appConfigs: Option<seq<AppConfig>>,
    urlConfigs: Option<seq<URLConfig>>,
    isAIEnhancementEnabled: bool,
    selectedPrompt: Option<Uuid>,
    selectedTranscriptionModelName: Option<string>,
    selectedLanguage: Option<string>,
    useScreenCapture: bool,
    selectedAIProvider: Option<string>,
    selectedAIModel: Option<string>)

  datatype Mode = Add | Edit(config: PowerModeConfig) | EditDefault(config: PowerModeConfig)

  /** An installed application as the app picker lists it (the icon is left out). */
  datatype InstalledApp = InstalledApp(url: string, name: string, bundleId: string)

  /** The rule names `PowerModeValidator` reports; their computation is not modelled. */
  datatype ValidationError = EmptyName | DuplicateName(name: string) | NoTriggers | DuplicateAppTrigger(appName: string) | DuplicateWebsiteTrigger(url: string)

  /** What the manager is asked to do when the form is saved. */
  datatype StoreAction = NoStoreChange | AddConfiguration(config: PowerModeConfig) | UpdateConfiguration(config: PowerModeConfig)

  /** The values of the form's fields that become part of a configuration. */
  datatype FormFields = FormFields(
    configName: string,
    selectedEmoji: string,
    isAIEnhancementEnabled: bool,
    selectedPromptId: Option<Uuid>,
    selectedTranscriptionModelName: Option<string>,
    selectedLanguage: Option<string>,
    selectedAppConfigs: seq<AppConfig>,
    websiteConfigs: seq<URLConfig>,
    useScreenCapture: bool,
    selectedAIProvider: Option<string>,
    selectedAIModel: Option<string>)

  // ---------------------------------------------------------------- pure decisions

  /** `canSave`: a configuration can be saved once it has a name. */
  function CanSave(configName: string): (r: bool)
    ensures r <==> |configName| > 0
  {
    configName != ""
  }

  /** `list.isEmpty ? nil : list` */
  function NilIfEmpty<T>(s: seq<T>): (r: Option<seq<T>>)
    ensures r.None? <==> |s| == 0
    ensures r.Some? ==> r.value == s
  {
    if |s| == 0 then None else Some(s)
  }

  /** `list ?? []` */
  function OrEmpty<T>(o: Option<seq<T>>): (r: seq<T>)
    ensures o.Some? ==> r == o.value
    ensures o.None? ==> r == []
  {
    if o.Some? then o.value else []
  }

  /** A form opened on a stored list and saved gives back that list, with an empty list
      stored as nil. */
  lemma {:induction false} ListRoundTrip<T>(o: Option<seq<T>>)
    ensures NilIfEmpty(OrEmpty(o)) == (if o.Some? && o.value != [] then o else None)
    ensures OrEmpty(NilIfEmpty(OrEmpty(o))) == OrEmpty(o)
  {
  }

  /** `effectiveModelName`: the model chosen in the form, else the current default's name. */
  function EffectiveModelName(selected: Option<string>, currentModelName: Option<string>): (r: Option<string>)
    ensures selected.Some? ==> r == selected
    ensures selected.None? ==> r == currentModelName
  {
    if selected.Some? then selected else currentModelName
  }

  /** `filteredApps`: every app while the search text is empty, otherwise the apps that
      `matches` (the locale-aware name/bundle-id search) accepts, in their order. */
  function FilteredApps(apps: seq<InstalledApp>, searchText: string, matches: (InstalledApp, string) -> bool)
    : (r: seq<InstalledApp>)
    ensures searchText == "" ==> r == apps
    ensures forall a :: a in r ==> a in apps
    ensures searchText != "" ==> forall a :: a in apps ==> (a in r <==> matches(a, searchText))
  {
    if searchText == "" then apps
    else
      var keep := (a: InstalledApp) => matches(a, searchText);
      var r := Filter(apps, keep);
      assert forall a :: a in apps && keep(a) ==> multiset(r)[a] > 0;
      r
  }

  /** The search keeps the matching apps in their order. */
  lemma FilteredAppsKeepsOrder(a: seq<InstalledApp>, b: seq<InstalledApp>, searchText: string,
                               matches: (InstalledApp, string) -> bool)
    ensures FilteredApps(a + b, searchText, matches) == FilteredApps(a, searchText, matches) + FilteredApps(b, searchText, matches)
    ensures forall x: InstalledApp :: searchText != "" ==>
      FilteredApps([x], searchText, matches) == (if matches(x, searchText) then [x] else [])
  {
    if searchText != "" {
      FilterOfConcat(a, b, (x: InstalledApp) => matches(x, searchText));
    }
  }

  /** Apps whose bundle id is `bundleId`. */
  predicate HasBundle(c: AppConfig, bundleId: string) {
    c.bundleIdentifier == bundleId
  }

  /** `toggleAppSelection`: remove the first app with the picked bundle id, or append a
      new one for it when there is none. */
  function ToggledApps(apps: seq<AppConfig>, app: InstalledApp, freshId: Uuid): (r: seq<AppConfig>)
    // not selected: one new entry for the app is appended
    ensures (forall k :: 0 <= k < |apps| ==> apps[k].bundleIdentifier != app.bundleId) ==>
      r == apps + [AppConfig(freshId, app.bundleId, app.name)]
    // selected: the first entry with the bundle id, and only it, is gone; the rest keep their order
    ensures forall i :: 0 <= i < |apps| && apps[i].bundleIdentifier == app.bundleId
                        && (forall k :: 0 <= k < i ==> apps[k].bundleIdentifier != app.bundleId) ==>
      |r| == |apps| - 1 && r == apps[..i] + apps[i + 1..]
      && multiset(r) == multiset(apps) - multiset{apps[i]}
  {
    var p := (c: AppConfig) => HasBundle(c, app.bundleId);
    match FirstWhere(apps, p)
    case Some(i) =>
      assert apps == apps[..i] + [apps[i]] + apps[i + 1..];
      apps[..i] + apps[i + 1..]
    case None => apps + [AppConfig(freshId, app.bundleId, app.name)]
  }

  /** Toggling an app that is not selected selects it; toggling it again restores the list. */
  lemma ToggleTwiceRestores(apps: seq<AppConfig>, app: InstalledApp, id1: Uuid, id2: Uuid)
    requires forall k :: 0 <= k < |apps| ==> apps[k].bundleIdentifier != app.bundleId
    ensures |ToggledApps(apps, app, id1)| == |apps| + 1
    ensures ToggledApps(ToggledApps(apps, app, id1), app, id2) == apps
  {
    var p := (c: AppConfig) => HasBundle(c, app.bundleId);
    assert FirstWhere(apps, p).None?;
    var once := ToggledApps(apps, app, id1);
    assert once == apps + [AppConfig(id1, app.bundleId, app.name)];
    assert p(once[|apps|]);
    assert forall k :: 0 <= k < |apps| ==> once[k] == apps[k];
    assert FirstWhere(once, p) == Some(|apps|);
    assert once[..|apps|] == apps;
  }

  /** Toggling a selected app removes exactly one entry, the first for that bundle id. */
  lemma ToggleRemovesFirstMatch(apps: seq<AppConfig>, app: InstalledApp, id: Uuid, i: nat)
    requires i < |apps| && apps[i].bundleIdentifier == app.bundleId
    requires forall k :: 0 <= k < i ==> apps[k].bundleIdentifier != app.bundleId
    ensures ToggledApps(apps, app, id) == apps[..i] + apps[i + 1..]
    ensures multiset(ToggledApps(apps, app, id)) == multiset(apps) - multiset{apps[i]}
  {
    var p := (c: AppConfig) => HasBundle(c, app.bundleId);
    assert p(apps[i]);
    assert FirstWhere(apps, p) == Some(i);
    assert apps == apps[..i] + [apps[i]] + apps[i + 1..];
  }

  /** The remove buttons: `removeAll(where: { $0.id == id })`. */
  function WithoutApp(apps: seq<AppConfig>, id: Uuid): (r: seq<AppConfig>)
    ensures forall a :: a in r <==> a in apps && a.id != id
    ensures forall a: AppConfig :: a.id != id ==> multiset(r)[a] == multiset(apps)[a]
  {
    var r := Filter(apps, (a: AppConfig) => a.id != id);
    assert forall a :: a in apps && a.id != id ==> multiset(r)[a] > 0;
    r
  }

  /** Removing an app keeps the other entries in their order. */
  lemma WithoutAppKeepsOrder(a: seq<AppConfig>, b: seq<AppConfig>, id: Uuid)
    ensures WithoutApp(a + b, id) == WithoutApp(a, id) + WithoutApp(b, id)
    ensures forall x: AppConfig :: WithoutApp([x], id) == (if x.id == id then [] else [x])
  {
    FilterOfConcat(a, b, (x: AppConfig) => x.id != id);
  }

  function WithoutWebsite(sites: seq<URLConfig>, id: Uuid): (r: seq<URLConfig>)
    ensures forall u :: u in r <==> u in sites && u.id != id
    ensures forall u: URLConfig :: u.id != id ==> multiset(r)[u] == multiset(sites)[u]
  {
    var r := Filter(sites, (u: URLConfig) => u.id != id);
    assert forall u :: u in sites && u.id != id ==> multiset(r)[u] > 0;
    r
  }

  /** Removing a website keeps the other entries in their order. */
  lemma WithoutWebsiteKeepsOrder(a: seq<URLConfig>, b: seq<URLConfig>, id: Uuid)
    ensures WithoutWebsite(a + b, id) == WithoutWebsite(a, id) + WithoutWebsite(b, id)
    ensures forall u: URLConfig :: WithoutWebsite([u], id) == (if u.id == id then [] else [u])
  {
    FilterOfConcat(a, b, (u: URLConfig) => u.id != id);
  }

  /** `getConfigForForm()` over the form's values; `newId` is the id a new configuration
      gets. Add builds a fresh configuration; Edit overwrites every field of the edited
      configuration but its id; EditDefault does the same but keeps the configuration's
      own app and website lists. */
  function ConfigFromFields(mode: Mode, f: FormFields, newId: Uuid): (c: PowerModeConfig)
    ensures mode.Add? ==> c.id == newId
    ensures !mode.Add? ==> c.id == mode.config.id
    ensures !mode.EditDefault? ==> c.appConfigs == NilIfEmpty(f.selectedAppConfigs) && c.urlConfigs == NilIfEmpty(f.websiteConfigs)
    ensures mode.EditDefault? ==> c.appConfigs == mode.config.appConfigs && c.urlConfigs == mode.config.urlConfigs
    ensures c.name == f.configName && c.emoji == f.selectedEmoji && c.selectedPrompt == f.selectedPromptId
    ensures c.isAIEnhancementEnabled == f.isAIEnhancementEnabled && c.useScreenCapture == f.useScreenCapture
    ensures c.selectedTranscriptionModelName == f.selectedTranscriptionModelName && c.selectedLanguage == f.selectedLanguage
    ensures c.selectedAIProvider == f.selectedAIProvider && c.selectedAIModel == f.selectedAIModel
  {
    match mode
    case Add =>
      PowerModeConfig(newId, f.configName, f.selectedEmoji,
        NilIfEmpty(f.selectedAppConfigs), NilIfEmpty(f.websiteConfigs),
        f.isAIEnhancementEnabled, f.selectedPromptId, f.selectedTranscriptionModelName,
        f.selectedLanguage, f.useScreenCapture, f.selectedAIProvider, f.selectedAIModel)
    case Edit(config) =>
      config.(name := f.configName, emoji := f.selectedEmoji,
        isAIEnhancementEnabled := f.isAIEnhancementEnabled,
        selectedPrompt := f.selectedPromptId,
        selectedTranscriptionModelName := f.selectedTranscriptionModelName,
        selectedLanguage := f.selectedLanguage,
        appConfigs := NilIfEmpty(f.selectedAppConfigs),
        urlConfigs := NilIfEmpty(f.websiteConfigs),
        useScreenCapture := f.useScreenCapture,
        selectedAIProvider := f.selectedAIProvider,
        selectedAIModel := f.selectedAIModel)
    case EditDefault(config) =>
      config.(name := f.configName, emoji := f.selectedEmoji,
        isAIEnhancementEnabled := f.isAIEnhancementEnabled,
        selectedPrompt := f.selectedPromptId,
        selectedTranscriptionModelName := f.selectedTranscriptionModelName,
        selectedLanguage := f.selectedLanguage,
        useScreenCapture := f.useScreenCapture,
        selectedAIProvider := f.selectedAIProvider,
        selectedAIModel := f.selectedAIModel)
  }

  /** The form's values when it opens: defaults for a new configuration (empty name,
      enhancement on, the saved global AI provider), the latest stored version of an edited
      configuration, or the manager's current default configuration. */
  function InitialFields(mode: Mode, latestEdited: Option<PowerModeConfig>, defaultConfig: PowerModeConfig,
                         savedAIProvider: Option<string>): FormFields
  {
    match mode
    case Add =>
      FormFields("", "\U{270F}\U{FE0F}", true, None, None, None, [], [], false, savedAIProvider, None)
    case Edit(config) =>
      var latest := if latestEdited.Some? then latestEdited.value else config;
      FieldsOf(latest, OrEmpty(latest.appConfigs), OrEmpty(latest.urlConfigs))
    case EditDefault(_) =>
      FieldsOf(defaultConfig, [], [])
  }

  function FieldsOf(c: PowerModeConfig, apps: seq<AppConfig>, sites: seq<URLConfig>): FormFields {
    FormFields(c.name, c.emoji, c.isAIEnhancementEnabled, c.selectedPrompt,
      c.selectedTranscriptionModelName, c.selectedLanguage, apps, sites,
      c.useScreenCapture, c.selectedAIProvider, c.selectedAIModel)
  }

  /** A configuration with its empty lists stored as nil. */
  function Normalized(c: PowerModeConfig): PowerModeConfig {
    c.(appConfigs := NilIfEmpty(OrEmpty(c.appConfigs)), urlConfigs := NilIfEmpty(OrEmpty(c.urlConfigs)))
  }

  /** Opening an existing configuration and saving it without edits stores its latest
      version again, changed only in that empty lists become nil. */
  lemma EditWithoutChangesRoundTrip(c: PowerModeConfig, latest: Option<PowerModeConfig>,
                                   d: PowerModeConfig, provider: Option<string>, newId: Uuid)
    requires latest.Some? ==> latest.value.id == c.id
    ensures ConfigFromFields(Edit(c), InitialFields(Edit(c), latest, d, provider), newId)
            == Normalized(if latest.Some? then latest.value else c)
  {
    ListRoundTrip(c.appConfigs);
    ListRoundTrip(c.urlConfigs);
    if latest.Some? {
      ListRoundTrip(latest.value.appConfigs);
      ListRoundTrip(latest.value.urlConfigs);
    }
  }

  /** Opening the default configuration `c` while the manager's default is `d`, and saving
      without edits, stores `d`'s settings under `c`'s id and with `c`'s own app and website
      lists; when the two agree, the default is stored unchanged, lists included. */
  lemma EditDefaultWithoutChangesRoundTrip(c: PowerModeConfig, d: PowerModeConfig, provider: Option<string>, newId: Uuid)
    ensures ConfigFromFields(EditDefault(c), InitialFields(EditDefault(c), None, d, provider), newId)
            == d.(id := c.id, appConfigs := c.appConfigs, urlConfigs := c.urlConfigs)
    ensures ConfigFromFields(EditDefault(d), InitialFields(EditDefault(d), None, d, provider), newId) == d
  {
  }

  /** A new configuration starts unnamed (so it cannot be saved yet), with no triggers,
      enhancement on and screen capture off. */
  lemma AddStartsEmpty(d: PowerModeConfig, provider: Option<string>)
    ensures var f := InitialFields(Add, None, d, provider);
      !CanSave(f.configName) && f.selectedAppConfigs == [] && f.websiteConfigs == []
      && f.isAIEnhancementEnabled && !f.useScreenCapture && f.selectedAIProvider == provider
      && f.selectedPromptId.None? && f.selectedTranscriptionModelName.None?
  {
  }

  /** What saving asks of the manager: nothing while validation reports an error; else add
      a new configuration, or update the edited one. */
  function SaveAction(mode: Mode, config: PowerModeConfig, errors: seq<ValidationError>): (a: StoreAction)
    ensures |errors| > 0 <==> a == NoStoreChange
    ensures |errors| == 0 && mode.Add? ==> a == AddConfiguration(config)
    ensures |errors| == 0 && !mode.Add? ==> a == UpdateConfiguration(config)
  {
    if |errors| > 0 then NoStoreChange
    else if mode.Add? then AddConfiguration(config)
    else UpdateConfiguration(config)
  }

  // ---------------------------------------------------------------- language picker order

  /** Swift's `<` on the display names, taken as lexicographic order of Unicode scalars. */
  predicate StringLess(a: string, b: string) {
    if |a| == 0 then |b| > 0
    else if |b| == 0 then false
    else if a[0] != b[0] then a[0] < b[0]
    else StringLess(a[1..], b[1..])
  }

  lemma {:induction false} StringLessIrreflexive(a: string)
    ensures !StringLess(a, a)
  {
    if |a| > 0 {
      StringLessIrreflexive(a[1..]);
    }
  }

  lemma {:induction false} StringLessTransitive(a: string, b: string, c: string)
    requires StringLess(a, b) && StringLess(b, c)
    ensures StringLess(a, c)
  {
    if |a| > 0 && |b| > 0 && |c| > 0 && a[0] == b[0] && b[0] == c[0] {
      StringLessTransitive(a[1..], b[1..], c[1..]);
    }
  }

  /** A supported language: its code and its display name. */
  datatype Language = Language(key: string, value: string)

  const AutoKey: string := "auto"

  /** The `sorted(by:)` comparator of the language picker. */
  predicate LanguageBefore(a: Language, b: Language) {
    if a.key == AutoKey then true
    else if b.key == AutoKey then false
    else StringLess(a.value, b.value)
  }

  /** "auto" goes before every other language, no language goes before it, and the others
      are ordered by display name. */
  lemma AutoComesFirst(a: Language, b: Language)
    ensures a.key == AutoKey ==> LanguageBefore(a, b)
    ensures a.key != AutoKey && b.key == AutoKey ==> !LanguageBefore(a, b)
    ensures a.key != AutoKey && b.key != AutoKey ==> (LanguageBefore(a, b) <==> StringLess(a.value, b.value))
  {
  }

  /** Over languages with distinct codes the comparator is a strict order, as `sorted(by:)`
      requires: irreflexive on non-auto entries and transitive. */
  lemma LanguageBeforeIsStrictOrder(a: Language, b: Language, c: Language)
    requires a.key != b.key && b.key != c.key && a.key != c.key
    ensures a.key != AutoKey ==> !LanguageBefore(a, a)
    ensures LanguageBefore(a, b) && LanguageBefore(b, c) ==> LanguageBefore(a, c)
  {
    StringLessIrreflexive(a.value);
    if LanguageBefore(a, b) && LanguageBefore(b, c) && a.key != AutoKey {
      StringLessTransitive(a.value, b.value, c.value);
    }
  }

  /** A list in the picker's order: no entry goes before an earlier one. */
  predicate SortedForPicker(langs: seq<Language>) {
    forall i, j :: 0 <= i < j < |langs| ==> !LanguageBefore(langs[j], langs[i])
  }

  /** When the supported languages include "auto", the picker lists it first. */
  lemma AutoIsListedFirst(langs: seq<Language>)
    requires SortedForPicker(langs)
    ensures forall j :: 0 < j < |langs| ==> langs[j].key != AutoKey
  {
    forall j | 0 < j < |langs|
      ensures langs[j].key != AutoKey
    {
      assert !LanguageBefore(langs[j], langs[0]);
    }
  }

  // ---------------------------------------------------------------- the form

  class ConfigurationForm {
    const mode: Mode
    var configName: string
    var selectedEmoji: string
    var isAIEnhancementEnabled: bool
    var selectedPromptId: Option<Uuid>
    var selectedTranscriptionModelName: Option<string>
    var selectedLanguage: Option<string>
    var installedApps: seq<InstalledApp>
    var searchText: string
    var validationErrors: seq<ValidationError>
    var showValidationAlert: bool
    var selectedAIProvider: Option<string>
    var selectedAIModel: Option<string>
    var selectedAppConfigs: seq<AppConfig>
    var websiteConfigs: seq<URLConfig>
    var newWebsiteURL: string
    var useScreenCapture: bool
    /** Whether the form is still on screen (`presentationMode.dismiss()` clears it). */
    var isPresented: bool

    function Fields(): FormFields
      reads this`configName, this`selectedEmoji, this`isAIEnhancementEnabled, this`selectedPromptId,
        this`selectedTranscriptionModelName, this`selectedLanguage, this`selectedAppConfigs,
        this`websiteConfigs, this`useScreenCapture, this`selectedAIProvider, this`selectedAIModel
    {
      FormFields(configName, selectedEmoji, isAIEnhancementEnabled, selectedPromptId,
        selectedTranscriptionModelName, selectedLanguage, selectedAppConfigs, websiteConfigs,
        useScreenCapture, selectedAIProvider, selectedAIModel)
    }

    /** `init(mode:powerModeManager:)`: `latestEdited` is the manager's latest copy of the
        edited configuration, `defaultConfig` its default configuration and
        `savedAIProvider` the globally saved AI provider. */
    constructor (mode: Mode, latestEdited: Option<PowerModeConfig>, defaultConfig: PowerModeConfig,
                 savedAIProvider: Option<string>)
      ensures this.mode == mode
      ensures Fields() == InitialFields(mode, latestEdited, defaultConfig, savedAIProvider)
      ensures newWebsiteURL == "" && searchText == "" && installedApps == []
      ensures validationErrors == [] && !showValidationAlert && isPresented
    {
      this.mode := mode;
      var f := InitialFields(mode, latestEdited, defaultConfig, savedAIProvider);
      configName := f.configName;
      selectedEmoji := f.selectedEmoji;
      isAIEnhancementEnabled := f.isAIEnhancementEnabled;
      selectedPromptId := f.selectedPromptId;
      selectedTranscriptionModelName := f.selectedTranscriptionModelName;
      selectedLanguage := f.selectedLanguage;
      selectedAppConfigs := f.selectedAppConfigs;
      websiteConfigs := f.websiteConfigs;
      useScreenCapture := f.useScreenCapture;
      selectedAIProvider := f.selectedAIProvider;
      selectedAIModel := f.selectedAIModel;
      installedApps := [];
      searchText := "";
      validationErrors := [];
      showValidationAlert := false;
      newWebsiteURL := "";
      isPresented := true;
    }

    /** `addWebsite()`: `cleanURL` is the manager's URL normaliser, `freshId` the new entry's id. */
    method AddWebsite(cleanURL: string -> string, freshId: Uuid)
      modifies this`websiteConfigs, this`newWebsiteURL
      ensures old(newWebsiteURL) == "" ==> websiteConfigs == old(websiteConfigs) && newWebsiteURL == ""
      ensures old(newWebsiteURL) != "" ==>
        websiteConfigs == old(websiteConfigs) + [URLConfig(freshId, cleanURL(old(newWebsiteURL)))]
        && newWebsiteURL == ""
    {
      if newWebsiteURL == "" {
        return;
      }
      var cleaned := cleanURL(newWebsiteURL);
      websiteConfigs := websiteConfigs + [URLConfig(freshId, cleaned)];
      newWebsiteURL := "";
    }

    /** `toggleAppSelection(_:)` */
    method ToggleAppSelection(app: InstalledApp, freshId: Uuid)
      modifies this`selectedAppConfigs
      ensures selectedAppConfigs == ToggledApps(old(selectedAppConfigs), app, freshId)
    {
      var index := FirstWhere(selectedAppConfigs, (c: AppConfig) => HasBundle(c, app.bundleId));
      if index.Some? {
        selectedAppConfigs := selectedAppConfigs[..index.value] + selectedAppConfigs[index.value + 1..];
      } else {
        selectedAppConfigs := selectedAppConfigs + [AppConfig(freshId, app.bundleId, app.name)];
      }
    }

    /** The remove button on a selected app. */
    method RemoveApp(id: Uuid)
      modifies this`selectedAppConfigs
      ensures selectedAppConfigs == WithoutApp(old(selectedAppConfigs), id)
    {
      selectedAppConfigs := WithoutApp(selectedAppConfigs, id);
    }

    /** The remove button on a website. */
    method RemoveWebsite(id: Uuid)
      modifies this`websiteConfigs
      ensures websiteConfigs == WithoutWebsite(old(websiteConfigs), id)
    {
      websiteConfigs := WithoutWebsite(websiteConfigs, id);
    }

    /** `getConfigForForm()`: the configuration the form's current values describe. */
    function GetConfigForForm(newId: Uuid): (c: PowerModeConfig)
      reads this`configName, this`selectedEmoji, this`isAIEnhancementEnabled, this`selectedPromptId,
        this`selectedTranscriptionModelName, this`selectedLanguage, this`selectedAppConfigs,
        this`websiteConfigs, this`useScreenCapture, this`selectedAIProvider, this`selectedAIModel
      ensures mode.Add? ==> c.id == newId
      ensures !mode.Add? ==> c.id == mode.config.id
      ensures !mode.EditDefault? ==>
        c.appConfigs == NilIfEmpty(selectedAppConfigs) && c.urlConfigs == NilIfEmpty(websiteConfigs)
      ensures mode.EditDefault? ==> c.appConfigs == mode.config.appConfigs && c.urlConfigs == mode.config.urlConfigs
      ensures c.name == configName && c.emoji == selectedEmoji && c.selectedPrompt == selectedPromptId
      ensures c.isAIEnhancementEnabled == isAIEnhancementEnabled && c.useScreenCapture == useScreenCapture
      ensures c.selectedTranscriptionModelName == selectedTranscriptionModelName && c.selectedLanguage == selectedLanguage
      ensures c.selectedAIProvider == selectedAIProvider && c.selectedAIModel == selectedAIModel
    {
      ConfigFromFields(mode, Fields(), newId)
    }

    /** `saveConfiguration()`: `validate` is `PowerModeValidator.validateForSave`. The
        returned action is what the manager is asked to do. */
    method SaveConfiguration(validate: (PowerModeConfig, Mode) -> seq<ValidationError>, newId: Uuid)
      returns (action: StoreAction)
      modifies this`validationErrors, this`showValidationAlert, this`isPresented
      ensures validationErrors == validate(old(GetConfigForForm(newId)), mode)
      ensures action == SaveAction(mode, old(GetConfigForForm(newId)), validationErrors)
      ensures |validationErrors| > 0 ==> showValidationAlert && isPresented == old(isPresented)
      ensures |validationErrors| == 0 ==> showValidationAlert == old(showValidationAlert) && !isPresented
    {
      var config := GetConfigForForm(newId);
      validationErrors := validate(config, mode);
      action := SaveAction(mode, config, validationErrors);
      if |validationErrors| > 0 {
        showValidationAlert := true;
      } else {
        isPresented := false;
      }
    }

    /** `onAppear`: a new configuration takes the global AI provider and model when it has
        none, and enhancement picks the first prompt when none is chosen. */
    method OnAppear(globalProvider: string, globalModel: string, firstPromptId: Option<Uuid>)
      modifies this`selectedAIProvider, this`selectedAIModel, this`selectedPromptId
      ensures mode.Add? && old(selectedAIProvider).None? ==> selectedAIProvider == Some(globalProvider)
      ensures !(mode.Add? && old(selectedAIProvider).None?) ==> selectedAIProvider == old(selectedAIProvider)
      ensures mode.Add? && (old(selectedAIModel).None? || old(selectedAIModel) == Some("")) ==> selectedAIModel == Some(globalModel)
      ensures !(mode.Add? && (old(selectedAIModel).None? || old(selectedAIModel) == Some(""))) ==> selectedAIModel == old(selectedAIModel)
      ensures isAIEnhancementEnabled && old(selectedPromptId).None? ==> selectedPromptId == firstPromptId
      ensures !(isAIEnhancementEnabled && old(selectedPromptId).None?) ==> selectedPromptId == old(selectedPromptId)
    {
      if mode.Add? {
        if selectedAIProvider.None? {
          selectedAIProvider := Some(globalProvider);
        }
        if selectedAIModel.None? || selectedAIModel == Some("") {
          selectedAIModel := Some(globalModel);
        }
      }
      if isAIEnhancementEnabled && selectedPromptId.None? {
        selectedPromptId := firstPromptId;
      }
    }
  }
}
