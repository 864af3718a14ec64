/** Configuration lookup (my_agent/utils/config.py): Streamlit secrets, then the environment, then a default. */
module Config {
  import opened Common

  /** The exception, if any, raised while reading `st.secrets.get(key)`. */
  datatype SecretsError = ImportErr | FileNotFoundErr | KeyErr | OtherErr

  /** What the Streamlit secrets source yields for one key. */
  datatype Secrets = SecretsValue(v: Value) | SecretsRaise(e: SecretsError)

  /** A config value, or an exception `_get_config` lets escape. */
  datatype Lookup = Found(v: Value) | Escaped(e: SecretsError)

  /** `_get_config(key, default)`: `env` is `os.environ.get(key)`. */
  function GetConfig(secrets: Secrets, env: Option<string>, default: Value): (r: Lookup)
    ensures secrets.SecretsValue? && secrets.v != VNone ==> r == Found(secrets.v)
    ensures secrets.SecretsRaise? && secrets.e == OtherErr ==> r == Escaped(OtherErr)
    ensures (secrets == SecretsValue(VNone) || (secrets.SecretsRaise? && secrets.e != OtherErr)) ==>
              r == (if env.Some? then Found(VStr(env.value)) else Found(default))
  {
    match secrets
    case SecretsValue(v) => if v != VNone then Found(v) else FromEnvironment(env, default)
    case SecretsRaise(e) => if e == OtherErr then Escaped(e) else FromEnvironment(env, default)
  }

  function FromEnvironment(env: Option<string>, default: Value): Lookup
  {
    match env
    case Some(s) => Found(VStr(s))
    case None => Found(default)
  }

  /** `str(value) == "1"`. */
  predicate FlagOn(v: Value)
  {
    Str(v) == "1"
  }

  lemma {:induction false} NatTextOne(n: nat)
    ensures NatToString(n) == "1" <==> n == 1
  {
    if n >= 10 {
      assert |NatToString(n)| >= 2;
    }
  }

  lemma {:induction false} DecimalTextHasPoint(r: real, k: nat, limit: nat)
    requires r >= 0.0
    ensures DecimalText(r, k, limit).Some? ==> '.' in DecimalText(r, k, limit).value
    decreases limit - k
  {
    var scaled := r * Pow10(k) as real;
    if scaled != scaled.Floor as real && k < limit {
      DecimalTextHasPoint(r, k + 1, limit);
    }
  }

  /** Only the string "1" and the integer 1 turn a toggle on; True, 1.0 and " 1" do not. */
  lemma FlagOnExactly(v: Value)
    ensures FlagOn(v) <==> v == VStr("1") || v == VInt(1)
  {
    match v
    case VInt(i) =>
      if i < 0 {
        assert IntToString(i)[0] == '-';
      } else {
        NatTextOne(i);
      }
    case VFloat(f) =>
      if f.Fin? && f.r != 0.0 {
        var a := AbsReal(f.r);
        if a >= 1.0 / 10000.0 && a < 10000000000000000.0 {
          DecimalTextHasPoint(a, 0, 15);
          var d := DecimalText(a, 0, 15);
          if d.Some? {
            var sign := if f.r < 0.0 then "-" else "";
            assert FloatText(f) == sign + d.value;
            assert '.' in FloatText(f);
          }
        }
      }
    case _ =>
  }

  /** A boolean toggle read with `_get_config(key, default)`; an escaping exception yields None. */
  function Toggle(secrets: Secrets, env: Option<string>, default: string): (r: Option<bool>)
    ensures r.None? <==> secrets == SecretsRaise(OtherErr)
  {
    match GetConfig(secrets, env, VStr(default))
    case Found(v) => Some(FlagOn(v))
    case Escaped(_) => None
  }

  /** Neither a secret nor an environment variable: the toggle takes its default. */
  const NoSecret := SecretsValue(VNone)

  function McpEnabled(secrets: Secrets, env: Option<string>): Option<bool> { Toggle(secrets, env, "1") }
  function ConfirmOnMulti(secrets: Secrets, env: Option<string>): Option<bool> { Toggle(secrets, env, "0") }
  function EnableRelevanceCheck(secrets: Secrets, env: Option<string>): Option<bool> { Toggle(secrets, env, "1") }
  function EnableMemory(secrets: Secrets, env: Option<string>): Option<bool> { Toggle(secrets, env, "1") }

  lemma ToggleDefaults()
    ensures McpEnabled(NoSecret, None) == Some(true)
    ensures ConfirmOnMulti(NoSecret, None) == Some(false)
    ensures EnableRelevanceCheck(NoSecret, None) == Some(true)
    ensures EnableMemory(NoSecret, None) == Some(true)
    ensures ConfirmOnMulti(SecretsRaise(ImportErr), None) == Some(false)
  {
  }

  /** A set environment variable decides the toggle exactly when it is "1". */
  lemma ToggleFromEnv(e: Secrets, value: string, default: string)
    requires e == NoSecret || (e.SecretsRaise? && e.e != OtherErr)
    ensures Toggle(e, Some(value), default) == Some(value == "1")
  {
  }

  /** `IntentType = Literal["SNS", "REVISIT", "ISSUE", "GENERAL"]`. */
  const IntentTypes: set<string> := {"SNS", "REVISIT", "ISSUE", "GENERAL"}

  predicate IsIntentType(s: string)
  {
    s in IntentTypes
  }

  /** The names config.py defines at module level, which `from my_agent.utils.config import ...` can bind. */
  const DefinedNames: set<string> := {
    "os", "Path", "Literal", "PROJECT_ROOT", "DATA_DIR", "MCP_DIR", "_get_config", "GOOGLE_API_KEY",
    "FRANCHISE_CSV", "BIZ_AREA_CSV", "ADMIN_DONG_CSV", "MCP_ENABLED", "MCP_SERVER_PATH", "LLM_MODEL",
    "LLM_TEMPERATURE", "LLM_MAX_RETRIES", "CONFIRM_ON_MULTI", "ENABLE_RELEVANCE_CHECK", "ENABLE_MEMORY",
    "CHECKPOINT_DIR", "IntentType"}

  /** The first of the imported names a module does not define: the one the ImportError names. */
  function FirstMissing(names: seq<string>, defined: set<string>): (r: Option<string>)
    ensures r.None? <==> forall i :: 0 <= i < |names| ==> names[i] in defined
    ensures r.Some? ==> exists i :: 0 <= i < |names| && names[i] == r.value && r.value !in defined
                                    && forall j :: 0 <= j < i ==> names[j] in defined
  {
    if names == [] then None
    else if names[0] !in defined then Some(names[0])
    else
      var rest := FirstMissing(names[1..], defined);
      if rest.Some? then
        var k :| 0 <= k < |names[1..]| && names[1..][k] == rest.value && rest.value !in defined
                 && forall j :: 0 <= j < k ==> names[1..][j] in defined;
        assert names[k + 1] == rest.value;
        rest
      else rest
  }

  /** None of the search settings the two web modules and the graph import is defined. */
  lemma SearchSettingsUndefined()
    ensures "DEFAULT_TOPK" !in DefinedNames && "DEFAULT_RECENCY_DAYS" !in DefinedNames
    ensures "TAVILY_API_KEY" !in DefinedNames && "SERPER_API_KEY" !in DefinedNames
    ensures "SEARCH_TIMEOUT" !in DefinedNames
  {
  }
}
