/**
 * The deploy event the deployment platform posts. Every field is optional in
 * the JSON; an absent field decodes to the empty string or to zero.
 */
module Netlify {
  import opened GoInt

  /** Where the build log can be read; carried by the event, never used. */
  datatype LogAccessAttributes = LogAccessAttributes(
    logType: string,
    url: string,
    endpoint: string,
    path: string,
    token: string)

  datatype Links = Links(permalink: string, alias: string)

  datatype NetlifyPayload = NetlifyPayload(
    id: string,
    siteId: string,
    buildId: string,
    name: string,
    deployUrl: string,
    deploySslUrl: string,
    createdAt: string,
    updatedAt: string,
    publishedAt: string,
    deployTime: int64,
    userId: string,
    commitRef: string,
    branch: string,
    logAccessAttributes: LogAccessAttributes,
    links: Links)
}
