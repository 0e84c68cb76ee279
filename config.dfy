/**
 * The plugin's settings (the `wc_xsr_settings` option, read once when the
 * plugin object is built) and the accessors that give each setting a default.
 */
module Config {
  import opened Php

  /** The stored option: a keyed array of strings; a key is absent until the admin saves it. */
  type Settings = map<string, string>

  const ModeKey := "mode"
  const SecretKey := "secret_key"
  const RemoteUrlKey := "remote_url"

  const DefaultMode := "disabled"

  /** The site's role ("sender", "receiver" or anything else); "disabled" when never set. */
  function GetMode(settings: Settings): (mode: string)
    ensures ModeKey !in settings ==> mode == DefaultMode
    ensures ModeKey in settings ==> mode == settings[ModeKey]
  {
    if ModeKey in settings then settings[ModeKey] else DefaultMode
  }

  /** The shared secret; the empty string when never set. */
  function GetSecret(settings: Settings): (secret: string)
    ensures SecretKey !in settings ==> secret == ""
    ensures SecretKey in settings ==> secret == settings[SecretKey]
  {
    if SecretKey in settings then settings[SecretKey] else ""
  }

  /** The peer site's base URL without trailing slashes; the empty string when never set. */
  function GetRemoteUrl(settings: Settings): (url: string)
    ensures RemoteUrlKey !in settings ==> url == ""
    ensures RemoteUrlKey in settings ==> url <= settings[RemoteUrlKey]
    ensures url == [] || !IsTrailingSlash(url[|url| - 1])
    ensures RemoteUrlKey in settings ==>
      forall i :: |url| <= i < |settings[RemoteUrlKey]| ==> IsTrailingSlash(settings[RemoteUrlKey][i])
  {
    if RemoteUrlKey in settings then Untrailingslashit(settings[RemoteUrlKey]) else ""
  }

  /** Saving the URL the accessor returned back into the settings gives the same URL again. */
  lemma GetRemoteUrlIdempotent(settings: Settings)
    ensures GetRemoteUrl(settings[RemoteUrlKey := GetRemoteUrl(settings)]) == GetRemoteUrl(settings)
  {
    if RemoteUrlKey in settings {
      UntrailingslashitIdempotent(settings[RemoteUrlKey]);
    }
  }
}
