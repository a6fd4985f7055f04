/** The plugin's configuration, as read through the getters of
    `MediaMelonKPPluginConfig` (that class is not part of this model; its
    fields are taken as plain values). */
module PluginConfig {
  import opened Wrappers

  datatype Config = Config(
    playerName: string,
    customerId: string,
    subscriberId: Option<string>,
    domainName: Option<string>,
    subscriberType: Option<string>,
    subscriberTag: Option<string>,
    hashSubscriberId: bool,
    playerBrand: string,
    playerModel: string,
    disableManifestFetch: bool,
    videoQuality: string,
    deviceId: string,
    deviceMarketingName: string,
    appName: string,
    appVersion: string,
    assetId: string,
    assetName: string,
    videoId: string,
    contentType: string,
    genre: string,
    drmProtection: string,
    seriesTitle: string,
    episodeNumber: string,
    /** The custom tag dictionary, in the order Swift's dictionary iteration yields it. */
    customTags: seq<(string, string)>)
}
