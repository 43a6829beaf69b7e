/**
 * MultiFastMCP: one MCP endpoint in front of several upstream MCP servers.
 * It aggregates the upstream catalogs of tools, resources, resource
 * templates and prompts, each built at most once on first use, and routes
 * every tool call, resource read and prompt render to the one upstream peer
 * that owns the name or URI.
 *
 * Upstream fetches are inputs: each build takes the sequence of per-peer
 * fetch results in peer order (what `asyncio.gather` returns). Delegating a
 * request yields `Delegate(peer, request)`: the owning peer receives the
 * request unchanged and whatever it returns or raises goes back to the
 * caller as it is.
 */
module Proxy {
  import opened Wrappers
  import opened PyDict
  import opened Catalog
  import opened TemplateMatcher

  type PeerName = string

  /** A catalog fan-out: one fetch of one kind of catalog from every peer. */
  datatype FanOut = ToolFetch | ResourceFetch | TemplateFetch | PromptFetch

  /** A request as the owning peer receives it. */
  datatype Request<A> =
    | ToolCall(tool: Key, toolArguments: A)
    | ResourceRead(uri: string)
    | PromptRender(prompt: Key, promptArguments: Option<A>)

  /** The outcome of a dispatch: delegated to one peer, or raised by the proxy. */
  datatype Routed<A> = Delegate(peer: PeerIndex, request: Request<A>) | Raise(error: Fault)

  /** The pair of fields of one catalog kind: owner map and aggregated descriptors. */
  datatype CatalogState<V> = CatalogState(owners: Option<map<Key, PeerIndex>>, descs: Option<Dict<V>>)

  /**
   * Both fields unset, or both set with the same keys, the descriptors a
   * well-formed dict and every owner one of the `peerCount` configured peers.
   */
  ghost predicate Consistent<V>(c: CatalogState<V>, peerCount: nat)
  {
    && c.owners.Some? == c.descs.Some?
    && (c.owners.Some? ==>
          && WellFormed(c.descs.value)
          && c.owners.value.Keys == c.descs.value.entries.Keys
          && forall k :: k in c.owners.value ==> c.owners.value[k] < peerCount)
  }

  /** A build from the fetch results of every peer. */
  ghost function Built<V>(results: seq<FetchResult<V>>): CatalogState<V>
  {
    var m := Merge(Listings(results));
    CatalogState(Some(m.owners), Some(m.descs))
  }

  /** A kind's build runs only while its owner map is unset. */
  ghost function BuildOnce<V>(before: CatalogState<V>, results: seq<FetchResult<V>>): CatalogState<V>
  {
    if before.owners.Some? then before else Built(results)
  }

  lemma BuiltIsConsistent<V>(results: seq<FetchResult<V>>)
    ensures Consistent(Built(results), |results|)
  {
    var m := Merge(Listings(results));
    forall k | k in m.owners ensures m.owners[k] < |results| {
      MergeOwnerIsLastLister(results, k);
    }
  }

  /** What `_build_resource_map` leaves behind. */
  datatype ResourceBuild<R, T> =
    ResourceBuild(raised: Option<Fault>, resources: CatalogState<R>, templates: CatalogState<T>, fetched: seq<FanOut>)

  /**
   * `_build_resource_map`: nothing when the resource map is already set
   * (the template block is skipped too); an AttributeError and nothing
   * built when a resource fetch failed with a plain exception; otherwise the
   * resource map, then the template map unless that one is already set.
   */
  ghost function ResourceBuildOf<R, T>(resources: CatalogState<R>, templates: CatalogState<T>,
                                       resourceResults: seq<FetchResult<R>>,
                                       templateResults: seq<FetchResult<T>>): ResourceBuild<R, T>
  {
    if resources.owners.Some? then ResourceBuild(None, resources, templates, [])
    else if HasPlainException(resourceResults) then
      ResourceBuild(Some(AttributeError("exceptions")), resources, templates, [ResourceFetch])
    else if templates.owners.Some? then
      ResourceBuild(None, Built(resourceResults), templates, [ResourceFetch])
    else
      ResourceBuild(None, Built(resourceResults), Built(templateResults), [ResourceFetch, TemplateFetch])
  }

  /**
   * The template branch of a resource read: delegate to the owner of the
   * first matching template. A matched template whose key is the empty
   * string fails the truth test on the template key and reads as a miss.
   */
  ghost function TemplateRoute<T, A>(templates: Dict<T>, owners: map<Key, PeerIndex>, uri: string,
                                     matches: (T, string) -> bool): Routed<A>
    requires WellFormed(templates)
  {
    match FirstMatch(templates, owners, uri, matches, 0)
    case Some(p) =>
      if templates.keys[p] != "" then Delegate(owners[templates.keys[p]], ResourceRead(uri))
      else Raise(McpError("Unknown resource: " + uri))
    case None => Raise(McpError("Unknown resource: " + uri))
  }

  /**
   * After a completed template build, a template read delegates to the owner
   * of the first template, in iteration order, that matches the URI; that
   * owner is the last peer listing the template. When no template matches
   * the read raises "Unknown resource".
   */
  lemma TemplateRouteAfterBuild<T, A>(templateResults: seq<FetchResult<T>>, uri: string,
                                      matches: (T, string) -> bool)
    ensures var t := Merge(Listings(templateResults));
      var r: Routed<A> := TemplateRoute(t.descs, t.owners, uri, matches);
      && (r.Delegate? ==>
            exists p :: 0 <= p < |t.descs.keys|
              && matches(t.descs.entries[t.descs.keys[p]], uri)
              && (forall q :: 0 <= q < p ==> !matches(t.descs.entries[t.descs.keys[q]], uri))
              && r == Delegate(t.owners[t.descs.keys[p]], ResourceRead(uri)))
      && (forall p :: 0 <= p < |t.descs.keys|
            && t.descs.keys[p] != ""
            && matches(t.descs.entries[t.descs.keys[p]], uri)
            && (forall q :: 0 <= q < p ==> !matches(t.descs.entries[t.descs.keys[q]], uri))
            ==> r == Delegate(t.owners[t.descs.keys[p]], ResourceRead(uri)))
      && ((forall q :: 0 <= q < |t.descs.keys| ==> !matches(t.descs.entries[t.descs.keys[q]], uri))
            ==> r == Raise(McpError("Unknown resource: " + uri)))
  {
    var t := Merge(Listings(templateResults));
    OwnedTemplatesNeverSkipped(t.descs, t.owners, uri, matches);
    var first := FirstMatch(t.descs, t.owners, uri, matches, 0);
    if first.Some? && t.descs.keys[first.value] != "" {
      var p := first.value;
      assert matches(t.descs.entries[t.descs.keys[p]], uri);
    }
    forall p | 0 <= p < |t.descs.keys|
        && t.descs.keys[p] != ""
        && matches(t.descs.entries[t.descs.keys[p]], uri)
        && (forall q :: 0 <= q < p ==> !matches(t.descs.entries[t.descs.keys[q]], uri))
      ensures TemplateRoute<T, A>(t.descs, t.owners, uri, matches) == Delegate(t.owners[t.descs.keys[p]], ResourceRead(uri))
    {
      assert first.Some?;
      assert first.value == p;
    }
  }

  /**
   * The routing of a resource read once the build has returned without
   * raising: an exact static match first, then the templates.
   */
  ghost function ReadRoute<R, T, A>(resources: CatalogState<R>, templates: CatalogState<T>, uri: string,
                                    matches: (T, string) -> bool): Routed<A>
    requires templates.descs.Some? ==> WellFormed(templates.descs.value)
  {
    if resources.owners.None? then Raise(McpError("Resource map could not be built."))
    else if uri in resources.owners.value then Delegate(resources.owners.value[uri], ResourceRead(uri))
    else if templates.owners.None? || templates.descs.None? then Raise(McpError("Resource template map could not be built."))
    else TemplateRoute(templates.descs.value, templates.owners.value, uri, matches)
  }

  /** A completed build is never repeated: a second build fetches nothing and changes nothing. */
  lemma BuildOnceIsIdempotent<V>(before: CatalogState<V>, first: seq<FetchResult<V>>, second: seq<FetchResult<V>>)
    ensures BuildOnce(before, first).owners.Some?
    ensures BuildOnce(BuildOnce(before, first), second) == BuildOnce(before, first)
  {
  }

  /**
   * Once `_build_resource_map` has returned without raising, the resource
   * map is set and every later call returns at once, fetching nothing.
   */
  lemma ResourceBuildIsIdempotent<R, T>(resources: CatalogState<R>, templates: CatalogState<T>,
                                        rr: seq<FetchResult<R>>, tr: seq<FetchResult<T>>,
                                        rr2: seq<FetchResult<R>>, tr2: seq<FetchResult<T>>)
    requires ResourceBuildOf(resources, templates, rr, tr).raised.None?
    ensures var b := ResourceBuildOf(resources, templates, rr, tr);
      && b.resources.owners.Some?
      && ResourceBuildOf(b.resources, b.templates, rr2, tr2) == ResourceBuild(None, b.resources, b.templates, [])
  {
  }

  /**
   * A peer that failed with a plain exception (not an exception group)
   * makes the resource build raise AttributeError('exceptions') after the
   * resource fan-out: no map is set and the templates are not fetched, so
   * the next call tries again.
   */
  lemma PlainExceptionBuildsNothing<R, T>(templates: CatalogState<T>, rr: seq<FetchResult<R>>, tr: seq<FetchResult<T>>)
    requires exists i :: 0 <= i < |rr| && rr[i] == Failed(false)
    ensures var b := ResourceBuildOf(CatalogState(None, None), templates, rr, tr);
      && b.raised == Some(AttributeError("exceptions"))
      && b.resources == CatalogState(None, None) && b.templates == templates
      && b.fetched == [ResourceFetch]
  {
  }

  /**
   * With the resource map set and the template map unset, a read of a URI
   * that is not a static resource raises "Resource template map could not be
   * built.": the build it triggers returns before the template block, and
   * the template map stays unset.
   */
  lemma TemplateMapErrorReachable<R, T, A>(resources: map<Key, PeerIndex>, descs: Dict<R>, uri: string,
                                           rr: seq<FetchResult<R>>, tr: seq<FetchResult<T>>,
                                           matches: (T, string) -> bool)
    requires uri !in resources
    ensures var b := ResourceBuildOf(CatalogState(Some(resources), Some(descs)), CatalogState(None, None), rr, tr);
      && b.raised.None? && b.templates == CatalogState(None, None) && b.fetched == []
      && ReadRoute<R, T, A>(b.resources, b.templates, uri, matches)
           == Raise(McpError("Resource template map could not be built."))
  {
  }

  class MultiProxy<Tool, Resource, Template, Prompt> {
    const name: string
    const proxies: seq<PeerName>

    var toolMap: Option<map<Key, PeerIndex>>
    var resourceMap: Option<map<Key, PeerIndex>>
    var promptMap: Option<map<Key, PeerIndex>>
    var templateMap: Option<map<Key, PeerIndex>>

    var aggregatedTools: Option<Dict<Tool>>
    var aggregatedResources: Option<Dict<Resource>>
    var aggregatedPrompts: Option<Dict<Prompt>>
    var aggregatedTemplates: Option<Dict<Template>>

    /** Every catalog fan-out performed so far, in order. */
    ghost var fanOuts: seq<FanOut>

    ghost function ToolCatalog(): CatalogState<Tool> reads this { CatalogState(toolMap, aggregatedTools) }
    ghost function ResourceCatalog(): CatalogState<Resource> reads this { CatalogState(resourceMap, aggregatedResources) }
    ghost function PromptCatalog(): CatalogState<Prompt> reads this { CatalogState(promptMap, aggregatedPrompts) }
    ghost function TemplateCatalog(): CatalogState<Template> reads this { CatalogState(templateMap, aggregatedTemplates) }

    /**
     * Every catalog pair is consistent, and the template map is never set
     * before the resource map (the template block runs only after the
     * resource map has been set).
     */
    ghost predicate Valid()
      reads this
    {
      && Consistent(ToolCatalog(), |proxies|)
      && Consistent(ResourceCatalog(), |proxies|)
      && Consistent(PromptCatalog(), |proxies|)
      && Consistent(TemplateCatalog(), |proxies|)
      && (templateMap.Some? ==> resourceMap.Some?)
    }

    /** Every map and cache starts unset; an empty peer list is accepted. */
    constructor (proxies: seq<PeerName>, name: string := "MultiFastMCP")
      ensures Valid()
      ensures this.proxies == proxies && this.name == name
      ensures toolMap.None? && resourceMap.None? && promptMap.None? && templateMap.None?
      ensures aggregatedTools.None? && aggregatedResources.None?
      ensures aggregatedPrompts.None? && aggregatedTemplates.None?
      ensures fanOuts == []
    {
      this.name := name;
      this.proxies := proxies;
      toolMap, resourceMap, promptMap, templateMap := None, None, None, None;
      aggregatedTools, aggregatedResources := None, None;
      aggregatedPrompts, aggregatedTemplates := None, None;
      fanOuts := [];
    }

    /** `_build_tool_map` */
    method BuildToolMap(results: seq<FetchResult<Tool>>)
      requires Valid() && |results| == |proxies|
      modifies this`toolMap, this`aggregatedTools, this`fanOuts
      ensures Valid()
      ensures ToolCatalog() == BuildOnce(old(ToolCatalog()), results)
      ensures fanOuts == old(fanOuts) + if old(toolMap).Some? then [] else [ToolFetch]
    {
      if toolMap.Some? {
        return;
      }
      fanOuts := fanOuts + [ToolFetch];
      var _, owners, descs := MergeCatalogs(results, false);
      BuiltIsConsistent(results);
      toolMap, aggregatedTools := Some(owners), Some(descs);
    }

    /** `get_tools` */
    method GetTools(results: seq<FetchResult<Tool>>) returns (tools: Dict<Tool>)
      requires Valid() && |results| == |proxies|
      modifies this`toolMap, this`aggregatedTools, this`fanOuts
      ensures Valid()
      ensures ToolCatalog() == BuildOnce(old(ToolCatalog()), results)
      ensures fanOuts == old(fanOuts) + if old(toolMap).Some? then [] else [ToolFetch]
      ensures aggregatedTools == Some(tools)
    {
      if toolMap.None? {
        BuildToolMap(results);
      }
      tools := if aggregatedTools.Some? then aggregatedTools.value else Empty();
    }

    /** `_build_resource_map`: the static resources, then the resource templates. */
    method BuildResourceMap(resourceResults: seq<FetchResult<Resource>>,
                            templateResults: seq<FetchResult<Template>>)
      returns (raised: Option<Fault>)
      requires Valid() && |resourceResults| == |proxies| && |templateResults| == |proxies|
      modifies this`resourceMap, this`aggregatedResources, this`templateMap, this`aggregatedTemplates, this`fanOuts
      ensures Valid()
      ensures var b := ResourceBuildOf(old(ResourceCatalog()), old(TemplateCatalog()), resourceResults, templateResults);
        && raised == b.raised
        && ResourceCatalog() == b.resources
        && TemplateCatalog() == b.templates
        && fanOuts == old(fanOuts) + b.fetched
    {
      if resourceMap.Some? {
        return None;
      }
      fanOuts := fanOuts + [ResourceFetch];
      var owners, descs;
      raised, owners, descs := MergeCatalogs(resourceResults, true);
      if raised.Some? {
        return;
      }
      BuiltIsConsistent(resourceResults);
      resourceMap, aggregatedResources := Some(owners), Some(descs);
      BuildTemplateMap(templateResults);
    }

    /** The template block of `_build_resource_map`, reached once the resource map is set. */
    method BuildTemplateMap(templateResults: seq<FetchResult<Template>>)
      requires Valid() && resourceMap.Some? && |templateResults| == |proxies|
      modifies this`templateMap, this`aggregatedTemplates, this`fanOuts
      ensures Valid()
      ensures TemplateCatalog() == BuildOnce(old(TemplateCatalog()), templateResults)
      ensures fanOuts == old(fanOuts) + if old(templateMap).Some? then [] else [TemplateFetch]
    {
      if templateMap.Some? {
        return;
      }
      fanOuts := fanOuts + [TemplateFetch];
      var _, owners, descs := MergeCatalogs(templateResults, false);
      BuiltIsConsistent(templateResults);
      templateMap, aggregatedTemplates := Some(owners), Some(descs);
    }

    /** `get_resources` */
    method GetResources(resourceResults: seq<FetchResult<Resource>>,
                        templateResults: seq<FetchResult<Template>>)
      returns (r: Result<Dict<Resource>, Fault>)
      requires Valid() && |resourceResults| == |proxies| && |templateResults| == |proxies|
      modifies this`resourceMap, this`aggregatedResources, this`templateMap, this`aggregatedTemplates, this`fanOuts
      ensures Valid()
      ensures var b := ResourceBuildOf(old(ResourceCatalog()), old(TemplateCatalog()), resourceResults, templateResults);
        && ResourceCatalog() == b.resources
        && TemplateCatalog() == b.templates
        && fanOuts == old(fanOuts) + b.fetched
        && (if b.raised.Some? then r == Failure(b.raised.value) else r.Success? && aggregatedResources == Some(r.value))
    {
      if resourceMap.None? {
        var raised := BuildResourceMap(resourceResults, templateResults);
        if raised.Some? {
          return Failure(raised.value);
        }
      }
      r := Success(if aggregatedResources.Some? then aggregatedResources.value else Empty());
    }

    /**
     * `get_resource_templates`: builds through `_build_resource_map`, which
     * does nothing when the resource map is already set; the template map
     * then stays unset and the result is the empty dict.
     */
    method GetResourceTemplates(resourceResults: seq<FetchResult<Resource>>,
                                templateResults: seq<FetchResult<Template>>)
      returns (r: Result<Dict<Template>, Fault>)
      requires Valid() && |resourceResults| == |proxies| && |templateResults| == |proxies|
      modifies this`resourceMap, this`aggregatedResources, this`templateMap, this`aggregatedTemplates, this`fanOuts
      ensures Valid()
      ensures old(templateMap).Some? ==>
        && ResourceCatalog() == old(ResourceCatalog()) && TemplateCatalog() == old(TemplateCatalog())
        && fanOuts == old(fanOuts) && r == Success(aggregatedTemplates.value)
      ensures old(templateMap).None? ==>
        var b := ResourceBuildOf(old(ResourceCatalog()), old(TemplateCatalog()), resourceResults, templateResults);
        && ResourceCatalog() == b.resources
        && TemplateCatalog() == b.templates
        && fanOuts == old(fanOuts) + b.fetched
        && (if b.raised.Some? then r == Failure(b.raised.value)
            else r == Success(if templateMap.Some? then aggregatedTemplates.value else Empty()))
    {
      if templateMap.None? {
        var raised := BuildResourceMap(resourceResults, templateResults);
        if raised.Some? {
          return Failure(raised.value);
        }
      }
      r := Success(if aggregatedTemplates.Some? then aggregatedTemplates.value else Empty());
    }

    /** `_build_prompt_map` */
    method BuildPromptMap(results: seq<FetchResult<Prompt>>)
      requires Valid() && |results| == |proxies|
      modifies this`promptMap, this`aggregatedPrompts, this`fanOuts
      ensures Valid()
      ensures PromptCatalog() == BuildOnce(old(PromptCatalog()), results)
      ensures fanOuts == old(fanOuts) + if old(promptMap).Some? then [] else [PromptFetch]
    {
      if promptMap.Some? {
        return;
      }
      fanOuts := fanOuts + [PromptFetch];
      var _, owners, descs := MergeCatalogs(results, false);
      BuiltIsConsistent(results);
      promptMap, aggregatedPrompts := Some(owners), Some(descs);
    }

    /** `get_prompts` */
    method GetPrompts(results: seq<FetchResult<Prompt>>) returns (prompts: Dict<Prompt>)
      requires Valid() && |results| == |proxies|
      modifies this`promptMap, this`aggregatedPrompts, this`fanOuts
      ensures Valid()
      ensures PromptCatalog() == BuildOnce(old(PromptCatalog()), results)
      ensures fanOuts == old(fanOuts) + if old(promptMap).Some? then [] else [PromptFetch]
      ensures aggregatedPrompts == Some(prompts)
    {
      if promptMap.None? {
        BuildPromptMap(results);
      }
      prompts := if aggregatedPrompts.Some? then aggregatedPrompts.value else Empty();
    }

    /**
     * `_mcp_call_tool`: the call goes unchanged to the owner of the tool
     * name, or raises "Unknown tool". The map is always set once the build
     * returns, so "Tool map could not be built." is never raised.
     */
    method CallTool<A>(key: Key, arguments: A, results: seq<FetchResult<Tool>>) returns (r: Routed<A>)
      requires Valid() && |results| == |proxies|
      modifies this`toolMap, this`aggregatedTools, this`fanOuts
      ensures Valid()
      ensures ToolCatalog() == BuildOnce(old(ToolCatalog()), results)
      ensures fanOuts == old(fanOuts) + if old(toolMap).Some? then [] else [ToolFetch]
      ensures toolMap.Some?
      ensures key in toolMap.value ==> r == Delegate(toolMap.value[key], ToolCall(key, arguments))
      ensures key !in toolMap.value ==> r == Raise(McpError("Unknown tool: " + key))
    {
      if toolMap.None? {
        BuildToolMap(results);
      }
      if toolMap.None? {
        return Raise(McpError("Tool map could not be built."));
      }
      var owners := toolMap.value;
      if key in owners {
        r := Delegate(owners[key], ToolCall(key, arguments));
      } else {
        r := Raise(McpError("Unknown tool: " + key));
      }
    }

    /**
     * `_mcp_read_resource`: an exact static match wins; only on a static
     * miss are the templates scanned, and the read goes to the owner of the
     * first matching template. The original URI is passed on unchanged.
     */
    method ReadResource<A>(uri: string, resourceResults: seq<FetchResult<Resource>>,
                           templateResults: seq<FetchResult<Template>>,
                           matches: (Template, string) -> bool)
      returns (r: Routed<A>)
      requires Valid() && |resourceResults| == |proxies| && |templateResults| == |proxies|
      modifies this`resourceMap, this`aggregatedResources, this`templateMap, this`aggregatedTemplates, this`fanOuts
      ensures Valid()
      ensures var b := ResourceBuildOf(old(ResourceCatalog()), old(TemplateCatalog()), resourceResults, templateResults);
        && ResourceCatalog() == b.resources
        && TemplateCatalog() == b.templates
        && fanOuts == old(fanOuts) + b.fetched
        && (b.raised.Some? ==> r == Raise(b.raised.value))
        && (b.raised.None? ==> r == ReadRoute(b.resources, b.templates, uri, matches))
    {
      if resourceMap.None? {
        var raised := BuildResourceMap(resourceResults, templateResults);
        if raised.Some? {
          return Raise(raised.value);
        }
      }
      if resourceMap.None? {
        return Raise(McpError("Resource map could not be built."));
      }
      var owners := resourceMap.value;
      if uri in owners {
        return Delegate(owners[uri], ResourceRead(uri));
      }

      if templateMap.None? {
        // returns at once: the resource map is set
        var _ := BuildResourceMap(resourceResults, templateResults);
      }
      if templateMap.None? {
        return Raise(McpError("Resource template map could not be built."));
      }
      var templateOwners := templateMap.value;
      var templates := GetResourceTemplates(resourceResults, templateResults);
      var found := FindTemplate(templates.value, templateOwners, uri, matches);
      if found.Some? && found.value.0 != "" {
        r := Delegate(found.value.1, ResourceRead(uri));
      } else {
        r := Raise(McpError("Unknown resource: " + uri));
      }
    }

    /**
     * `_mcp_get_prompt`: the render goes unchanged to the owner of the
     * prompt name, or raises "Unknown prompt"; "Prompt map could not be
     * built." is never raised.
     */
    method GetPrompt<A>(name: Key, arguments: Option<A>, results: seq<FetchResult<Prompt>>) returns (r: Routed<A>)
      requires Valid() && |results| == |proxies|
      modifies this`promptMap, this`aggregatedPrompts, this`fanOuts
      ensures Valid()
      ensures PromptCatalog() == BuildOnce(old(PromptCatalog()), results)
      ensures fanOuts == old(fanOuts) + if old(promptMap).Some? then [] else [PromptFetch]
      ensures promptMap.Some?
      ensures name in promptMap.value ==> r == Delegate(promptMap.value[name], PromptRender(name, arguments))
      ensures name !in promptMap.value ==> r == Raise(McpError("Unknown prompt: " + name))
    {
      if promptMap.None? {
        BuildPromptMap(results);
      }
      if promptMap.None? {
        return Raise(McpError("Prompt map could not be built."));
      }
      var owners := promptMap.value;
      if name in owners {
        r := Delegate(owners[name], PromptRender(name, arguments));
      } else {
        r := Raise(McpError("Unknown prompt: " + name));
      }
    }
  }
}
