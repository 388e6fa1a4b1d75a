/**
 * The `MomentumServer` object's own fields: the adapter it selected, its
 * options, the filter dictionary, the authorization strategy and the URL
 * prefix, with the methods that read and replace them. The handlers and the
 * emitter built on these fields are modelled in their own modules.
 */
module Server {

  import opened Wrappers
  import opened JsValues
  import opened ServerOptions
  import opened Adapters
  import opened Authorization
  import Listening

  const DefaultUrlPrefix := "/api/mm/"

  class MomentumServer {
    var isReady: bool
    var options: Options
    var adapter: Option<Instance>
    var filters: Listening.Filters
    var strategy: Strategy
    var urlPrefix: Value

    /**
     * `new MomentumServer(connector)`: not ready, default options, no
     * filters, no strategy or prefix set, and the first compatible adapter
     * of the table (or none).
     */
    constructor (t: Table, connector: string)
      ensures adapter == FirstCompatible(t, connector)
      ensures !isReady && options == Defaults && filters == map[]
      ensures strategy == Unset && urlPrefix == Undefined
    {
      var chosen := CreateAdapterInstance(t, connector);
      adapter := chosen;
      isReady := false;
      options := Defaults;
      filters := map[];
      strategy := Unset;
      urlPrefix := Undefined;
    }

    /** `addFilter(filter, callback)`: the dictionary entry is set or replaced; nothing else changes. */
    method AddFilter(name: string, callback: Option<Listening.FilterId>)
      modifies this
      ensures filters == Listening.AddFilter(old(filters), name, callback)
      ensures isReady == old(isReady) && options == old(options) && adapter == old(adapter)
      ensures strategy == old(strategy) && urlPrefix == old(urlPrefix)
    {
      filters := filters[name := callback];
    }

    /** `setAuthorizationStrategy(strategy)`. */
    method SetAuthorizationStrategy(s: Strategy)
      modifies this
      ensures strategy == s
      ensures isReady == old(isReady) && options == old(options) && adapter == old(adapter)
      ensures filters == old(filters) && urlPrefix == old(urlPrefix)
    {
      strategy := s;
    }

    /** `setUrlPrefix(prefix)`. */
    method SetUrlPrefix(prefix: Value)
      modifies this
      ensures urlPrefix == prefix
      ensures isReady == old(isReady) && options == old(options) && adapter == old(adapter)
      ensures filters == old(filters) && strategy == old(strategy)
    {
      urlPrefix := prefix;
    }

    /** `getUrlPrefix()`: the prefix set, unless it is falsy; then `/api/mm/`. Never falsy. */
    function GetUrlPrefix(): (r: Value)
      reads this
      ensures Truthy(r)
      ensures Truthy(urlPrefix) ==> r == urlPrefix
      ensures !Truthy(urlPrefix) ==> r == Str(DefaultUrlPrefix)
    {
      if Truthy(urlPrefix) then urlPrefix else Str(DefaultUrlPrefix)
    }

    /** `isAllowed(mode, method, args)` with the strategy currently configured. */
    function Allowed(mode: string, methodName: Option<string>, args: Value): Result<Settle<Value>>
      reads this
    {
      IsAllowed(strategy, mode, methodName, args)
    }
  }

  /**
   * A fresh server allows every request until a strategy is set, answers
   * with the default prefix until one is set, and knows no filter.
   */
  method FreshServerDefaults(t: Table, connector: string, mode: string, methodName: Option<string>,
                             args: Value, name: string)
    returns (allowed: Result<Settle<Value>>, prefix: Value, filter: Option<Listening.FilterId>)
    ensures allowed == Ok(Resolved(Bool(true)))
    ensures prefix == Str(DefaultUrlPrefix)
    ensures filter == None
  {
    var s := new MomentumServer(t, connector);
    DefaultAllows(mode, methodName, args);
    allowed := s.Allowed(mode, methodName, args);
    prefix := s.GetUrlPrefix();
    filter := Listening.GetFilter(s.filters, name);
  }

  /** Setting an empty prefix falls back to the default one. */
  method EmptyPrefixFallsBack(t: Table, connector: string) returns (prefix: Value)
    ensures prefix == Str(DefaultUrlPrefix)
  {
    var s := new MomentumServer(t, connector);
    s.SetUrlPrefix(Str(""));
    prefix := s.GetUrlPrefix();
  }
}
