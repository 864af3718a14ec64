/** Input checks for the merchant tools (mcp/contracts.py). */
module McpContracts {
  import opened Common
  import McpTools

  /** `(ok, error)` as the validators return it. */
  datatype Validation = Validation(ok: bool, error: Option<string>)

  /** `validate_merchant_search_input(data)`. */
  function ValidateMerchantSearchInput(data: Record): (r: Validation)
    ensures !Get(data, "merchant_name").VStr? <==> r == Validation(false, Some("merchant_name must be string"))
    ensures (Get(data, "merchant_name").VStr? && Strip(Get(data, "merchant_name").s) == "") <==>
              r == Validation(false, Some("merchant_name cannot be empty"))
    ensures r.ok <==> Get(data, "merchant_name").VStr? && Strip(Get(data, "merchant_name").s) != ""
    ensures r.ok ==> r.error.None?
  {
    match Get(data, "merchant_name")
    case VStr(s) =>
      if Strip(s) == "" then Validation(false, Some("merchant_name cannot be empty"))
      else Validation(true, None)
    case _ => Validation(false, Some("merchant_name must be string"))
  }

  /** `validate_store_id_input(data)`: a missing or falsy id is refused. */
  function ValidateStoreIdInput(data: Record): (r: Validation)
    ensures r.ok <==> Truthy(Get(data, "store_id"))
    ensures r.ok ==> r.error.None?
    ensures !r.ok ==> r.error == Some("store_id required")
  {
    if !Truthy(Get(data, "store_id")) then Validation(false, Some("store_id required"))
    else Validation(true, None)
  }

  /** The validator is weaker than `search_merchant`'s own check: a name made only of stars passes it
      and still reaches the empty-query answer. */
  lemma StarOnlyNamePasses(df: Table)
    ensures ValidateMerchantSearchInput(map["merchant_name" := VStr("*")]).ok
    ensures McpTools.SearchMerchant(df, "*") == McpTools.SearchResult(false, McpTools.EmptyQuery, 0, [])
  {
    assert StripLeft("*") == "*";
    assert StripRight("*") == "*";
    assert RemoveChar("*", '*') == "";
  }
}
