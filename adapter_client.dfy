/** Direct tool dispatch (mcp/adapter_client.py). */
module AdapterClient {
  import opened Common
  import McpTools

  /** What one of the five tools returns. */
  datatype ToolOutput =
    | SearchOut(search: McpTools.SearchResult)
    | StoreOut(store: McpTools.StoreLoad)
    | RegionOut(region: McpTools.RegionResult)
    | DataOut(data: McpTools.ToolData)

  /** The outcome of `call_mcp_tool`: a return value or the exception it raises. */
  datatype Dispatch =
    | Returned(out: ToolOutput)
    | RaisedValueError(message: string)
    | RaisedTypeError

  /** The keys of `tools_map`. */
  const ToolNames: set<string> := {"search_merchant", "load_store_data", "resolve_region", "load_area_data", "load_region_data"}

  /** The single keyword parameter of each tool. */
  function ParamOf(name: string): string
    requires name in ToolNames
  {
    if name == "search_merchant" then "merchant_name"
    else if name == "load_store_data" then "store_id"
    else if name == "resolve_region" then "district"
    else "admin_dong_code"
  }

  /** `get_mcp_tools()`. */
  function GetMcpTools(): (tools: seq<string>)
    ensures |tools| == 0
  {
    []
  }

  /** The ValueError text for an unknown tool. */
  function NotFoundMessage(name: string): string
  {
    "Tool " + name + " not found"
  }

  /** `call_mcp_tool(tool_name, **kwargs)` over the record table `df`. A call whose keyword
      arguments are not exactly the tool's parameter raises TypeError, as Python does. */
  function CallMcpTool(df: Table, name: string, kwargs: map<string, string>): (r: Dispatch)
    ensures r.RaisedValueError? <==> name !in ToolNames
    ensures r.RaisedValueError? ==> r.message == NotFoundMessage(name)
    ensures r.RaisedTypeError? <==> name in ToolNames && kwargs.Keys != {ParamOf(name)}
    ensures r.Returned? && name == "search_merchant" ==>
              r.out == SearchOut(McpTools.SearchMerchant(df, kwargs["merchant_name"]))
    ensures r.Returned? && name == "load_store_data" ==>
              r.out == StoreOut(McpTools.LoadStoreData(df, kwargs["store_id"]))
    ensures r.Returned? && name == "resolve_region" ==>
              r.out == RegionOut(McpTools.ResolveRegion(df, kwargs["district"]))
    ensures r.Returned? && name == "load_area_data" ==>
              r.out == DataOut(McpTools.LoadAreaData(kwargs["admin_dong_code"]))
    ensures r.Returned? && name == "load_region_data" ==>
              r.out == DataOut(McpTools.LoadRegionData(kwargs["admin_dong_code"]))
  {
    if name !in ToolNames then RaisedValueError(NotFoundMessage(name))
    else if kwargs.Keys != {ParamOf(name)} then RaisedTypeError
    else
      var arg := kwargs[ParamOf(name)];
      Returned(
        if name == "search_merchant" then SearchOut(McpTools.SearchMerchant(df, arg))
        else if name == "load_store_data" then StoreOut(McpTools.LoadStoreData(df, arg))
        else if name == "resolve_region" then RegionOut(McpTools.ResolveRegion(df, arg))
        else if name == "load_area_data" then DataOut(McpTools.LoadAreaData(arg))
        else DataOut(McpTools.LoadRegionData(arg)))
  }

  /** "web_search" is not in the dispatch table, so every call to it raises ValueError. */
  lemma WebSearchRaises(df: Table, kwargs: map<string, string>)
    ensures CallMcpTool(df, "web_search", kwargs) == RaisedValueError(NotFoundMessage("web_search"))
  {
    ToolNamesLong();
    assert |"web_search"| == 10;
  }

  lemma ToolNamesLong()
    ensures forall k :: k in ToolNames ==> |k| >= 14
  {
  }

  /** A well-formed search call always answers with at most 20 distinct merchants. */
  lemma SearchCallBounded(df: Table, query: string)
    ensures var r := CallMcpTool(df, "search_merchant", map["merchant_name" := query]);
            r.Returned? && r.out.SearchOut? && r.out.search.count <= 20
  {
    assert map["merchant_name" := query].Keys == {"merchant_name"};
  }
}
