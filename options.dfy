/** The server's tunables and the names of its bookkeeping collections. */
module ServerOptions {

  datatype Options = Options(
    groupingDelay: nat,
    maxTokensPerIp: nat,
    maxEventsListeners: nat,
    timeOut: nat,
    collectionPrefix: string)

  /** The values the constructor installs. */
  const Defaults := Options(200, 16, 131072, 120000, "mm_")

  function TokensCollection(opts: Options): string {
    opts.collectionPrefix + "tokens"
  }

  function EventsCollection(opts: Options): string {
    opts.collectionPrefix + "events"
  }

  /** With the default prefix the two tables are `mm_tokens` and `mm_events`, and they differ for any prefix. */
  lemma CollectionNames(opts: Options)
    ensures TokensCollection(Defaults) == "mm_tokens"
    ensures EventsCollection(Defaults) == "mm_events"
    ensures TokensCollection(opts) != EventsCollection(opts)
  {
    var p := opts.collectionPrefix;
    assert TokensCollection(opts)[|p|] == 't' && EventsCollection(opts)[|p|] == 'e';
  }
}
