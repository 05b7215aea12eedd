/** The scraped record, one per server listed on a page. */
module Items {

  /** One `{data_id: title}` entry of the item's tag list. */
  datatype Tag = Tag(dataId: string, title: string)

  /**
   * The response's `Date` header as a timestamp. Python computes a float;
   * the model keeps it opaque.
   */
  datatype Timestamp = Timestamp(epochSeconds: real)

  /** `DisboardServerItem`. */
  datatype ServerItem = ServerItem(
    scrapeTime: Timestamp,
    platformLink: string,
    guildId: string,
    serverName: string,
    serverDescription: string,
    tags: seq<Tag>,
    category: string)
}
