/**
 * The settings store: the selected provider and model, one API key per
 * provider, and the colour theme. Only provider, model and theme are saved
 * between runs; the API keys live in memory only.
 */
module Settings {
  import opened Wrappers
  import opened Models

  datatype Theme = Light | Dark | System

  datatype SettingsState = SettingsState(
    provider: AIProvider,
    model: string,
    apiKeys: map<AIProvider, string>,
    theme: Theme)

  /** The part of the settings that is written to durable storage. */
  datatype PersistedSettings = PersistedSettings(provider: AIProvider, model: string, theme: Theme)

  /** The settings before anything is set or restored. */
  const INITIAL_SETTINGS: SettingsState := SettingsState(OpenAI, "gpt-4o", map[], System)

  /** The saved projection of the settings: provider, model and theme, never the keys. */
  function Partialize(s: SettingsState): (p: PersistedSettings)
    ensures p.provider == s.provider && p.model == s.model && p.theme == s.theme
  {
    PersistedSettings(s.provider, s.model, s.theme)
  }

  /** The settings at start-up after a saved projection is merged into the initial settings. */
  function Rehydrate(p: PersistedSettings): (s: SettingsState)
    ensures s.apiKeys == map[]
  {
    INITIAL_SETTINGS.(provider := p.provider, model := p.model, theme := p.theme)
  }

  /**
   * Saving and restoring loses exactly the API keys: restoring gives back
   * provider, model and theme with no keys, and saving a restored state gives
   * back what was saved.
   */
  lemma PersistRoundTrip(s: SettingsState, p: PersistedSettings)
    ensures Rehydrate(Partialize(s)) == s.(apiKeys := map[])
    ensures Partialize(Rehydrate(p)) == p
    ensures Partialize(s.(apiKeys := map[])) == Partialize(s)
  {
  }

  /** The initial settings name a model of their own provider. */
  lemma InitialModelIsListed()
    ensures GetModelConfig(INITIAL_SETTINGS.provider, INITIAL_SETTINGS.model).Some?
  {
    DefaultSettingsModelIsListed();
  }

  class SettingsStore {
    var provider: AIProvider
    var model: string
    var apiKeys: map<AIProvider, string>
    var theme: Theme

    /** The store's current settings as one value. */
    function Snapshot(): SettingsState
      reads this
    {
      SettingsState(provider, model, apiKeys, theme)
    }

    /** The key stored for `p`, or nothing if none was ever set. */
    function GetApiKey(p: AIProvider): (r: Option<string>)
      reads this
      ensures r.Some? <==> p in apiKeys
      ensures r.Some? ==> r.value == apiKeys[p]
    {
      if p in apiKeys then Some(apiKeys[p]) else None
    }

    constructor ()
      ensures Snapshot() == INITIAL_SETTINGS
      ensures forall p :: GetApiKey(p).None?
    {
      provider := OpenAI;
      model := "gpt-4o";
      apiKeys := map[];
      theme := System;
    }

    /** Changes the provider only; the model is left as it was, even if the new provider does not list it. */
    method SetProvider(p: AIProvider)
      modifies this
      ensures Snapshot() == old(Snapshot()).(provider := p)
    {
      provider := p;
    }

    method SetModel(m: string)
      modifies this
      ensures Snapshot() == old(Snapshot()).(model := m)
    {
      model := m;
    }

    /** Stores `key` for `p`; the keys of the other providers are unchanged. */
    method SetApiKey(p: AIProvider, key: string)
      modifies this
      ensures GetApiKey(p) == Some(key)
      ensures forall q :: q != p ==> GetApiKey(q) == old(GetApiKey(q))
      ensures Snapshot() == old(Snapshot()).(apiKeys := old(apiKeys)[p := key])
    {
      apiKeys := apiKeys[p := key];
    }

    method SetTheme(t: Theme)
      modifies this
      ensures Snapshot() == old(Snapshot()).(theme := t)
    {
      theme := t;
    }
  }
}
