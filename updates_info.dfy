/**
 * The update catalog of one product, as the catalog reader hands it over:
 * channels in document order, each with its builds in document order, each
 * build with its patches in document order.  Licensing, major version,
 * version and message are carried as payload; they take no part in the
 * decision.
 */
module UpdatesInfo {
  import opened Optional
  import opened BuildNumbers

  /** Channel tiers, from the most eager to the most stable. */
  datatype ChannelStatus = Eap | Beta | Release

  /** Host platforms a patch can be excluded from ("win", "mac", "unix"). */
  datatype Platform = Windows | Mac | Unix

  datatype Patch = Patch(from: BuildNumber, exclusions: seq<Platform>)

  /** A published build; `targetSince`/`targetUntil` restrict which installations it is offered to. */
  datatype Build = Build(
    number: BuildNumber,
    version: string,
    message: Option<string>,
    targetSince: Option<BuildNumber>,
    targetUntil: Option<BuildNumber>,
    patches: seq<Patch>)

  datatype Channel = Channel(
    id: string,
    status: ChannelStatus,
    licensing: string,
    majorVersion: Option<string>,
    builds: seq<Build>)
}
