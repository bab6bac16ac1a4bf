/**
 * The settings page: loading the pipeline configuration, and the API-key
 * field that saves to and clears the client's stored key.
 */
module SettingsPage {
  import opened Wrappers
  import opened Text
  import opened FrontendTypes
  import opened Client

  class SettingsForm {
    var config: Option<PipelineConfig>
    /** The API-key input field. */
    var apiKey: string
    var loading: bool

    constructor ()
      ensures config.None? && apiKey == "" && loading
    {
      config := None;
      apiKey := "";
      loading := true;
    }

    /**
     * `loadConfig`, its call settling with `outcome`: the configuration is
     * taken when the call returns one, and `loading` ends false either way.
     */
    method LoadConfig(outcome: Outcome<PipelineConfig>)
      modifies this
      ensures !loading
      ensures outcome.Returned? ==> config == Some(outcome.value)
      ensures !outcome.Returned? ==> config == old(config)
      ensures apiKey == old(apiKey)
    {
      loading := true;
      if outcome.Returned? {
        config := Some(outcome.value);
      }
      loading := false;
    }

    /** The mount effect: load the configuration and prefill the field with a stored key. */
    method Mount(client: ApiClient, outcome: Outcome<PipelineConfig>)
      modifies this
      ensures !loading
      ensures outcome.Returned? ==> config == Some(outcome.value)
      ensures !outcome.Returned? ==> config == old(config)
      ensures apiKey == (if Truthy(client.apiKey) then client.apiKey.value else old(apiKey))
    {
      LoadConfig(outcome);
      var existing := client.GetApiKey();
      if Truthy(existing) {
        apiKey := existing.value;
      }
    }

    /**
     * `handleSaveApiKey`: a blank field is refused and nothing is stored;
     * otherwise the trimmed field becomes the client's key, so the stored
     * key is never blank and always satisfies the submit forms' key check.
     */
    method HandleSaveApiKey(client: ApiClient)
      modifies client, client.storage
      ensures IsBlank(JavaScript, apiKey) ==>
        client.apiKey == old(client.apiKey) && client.storage.entries == old(client.storage.entries)
      ensures !IsBlank(JavaScript, apiKey) ==>
        && client.apiKey == Some(Trim(JavaScript, apiKey))
        && client.storage.entries == old(client.storage.entries)[ApiKeyEntry := Trim(JavaScript, apiKey)]
        && Truthy(client.apiKey)
    {
      TrimEmptyIffBlank(JavaScript, apiKey);
      var trimmed := Trim(JavaScript, apiKey);
      if trimmed == [] {
        return;
      }
      client.SetApiKey(trimmed);
    }

    /** `handleClearApiKey`: the client forgets its key and the field is emptied. */
    method HandleClearApiKey(client: ApiClient)
      modifies this, client, client.storage
      ensures client.apiKey.None? && apiKey == ""
      ensures client.storage.entries == old(client.storage.entries) - {ApiKeyEntry}
      ensures config == old(config) && loading == old(loading)
    {
      client.ClearApiKey();
      apiKey := "";
    }
  }
}
