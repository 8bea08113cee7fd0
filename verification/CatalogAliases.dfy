/** The two aliases of test/block_catalog_service_test.cpp, and which of them is browsed. */
module CatalogAliases {
  import opened Wrappers
  import opened BlockCatalog
  import opened CatalogService

  const SHORT_ID := "blocks.sources.signal_source_f"
  const LONG_ID := "blocks.sources.signal_source_f_alias"
  const SIGNAL_SOURCE_TYPE := "gr::basic::SignalSource<float>"

  /** The signal source of the catalog tests, under one of its two ids. */
  function SignalSource(id: string, outputs: seq<PortDescriptor>,
                        parameters: seq<ParameterDescriptor>): BlockDescriptor {
    BlockDescriptor(id, Some(SIGNAL_SOURCE_TYPE), "Signal Source", "Sources", "", [], outputs, parameters)
  }

  /**
   For a provider that lists the two ids of the signal source, and whatever
   other blocks, the longer is browsed and the shorter, which
   test/block_catalog_service_test.cpp:89-92 expects, is not.
   */
  lemma ShorterAliasIsNotBrowsed(blocks: seq<BlockDescriptor>, catalog: CachedCatalog,
                                 outputs: seq<PortDescriptor>, parameters: seq<ParameterDescriptor>)
    requires IsCatalog(blocks, catalog)
    requires SignalSource(SHORT_ID, outputs, parameters) in blocks
    requires SignalSource(LONG_ID, outputs, parameters) in blocks
    requires forall other :: other in blocks && CanonicalKey(other) == SIGNAL_SOURCE_TYPE ==>
      other == SignalSource(SHORT_ID, outputs, parameters) || other == SignalSource(LONG_ID, outputs, parameters)
    ensures SignalSource(LONG_ID, outputs, parameters) in catalog.browse
    ensures SignalSource(SHORT_ID, outputs, parameters) !in catalog.browse
    ensures SHORT_ID in catalog.exact && LONG_ID in catalog.exact
  {
    hide Represents, Ordered;
    var shorter, longer := SignalSource(SHORT_ID, outputs, parameters), SignalSource(LONG_ID, outputs, parameters);
    assert CanonicalKey(shorter) == CanonicalKey(longer) == SIGNAL_SOURCE_TYPE;
    assert LONG_ID[0] != SIGNAL_SOURCE_TYPE[0];
    LongerOfTwoIsBrowsed(blocks, catalog.browse, shorter, longer);
  }
}
