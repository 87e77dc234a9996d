/**
 * Run configuration read from the process environment, which is passed in as a
 * map from variable names to values: the truthy-flag parser and the ordered
 * validation of the required settings.
 */
module Config {
  import opened Wrappers
  import opened Text
  import Decimal

  /** Python's `os.getenv(name, default)`. */
  function Getenv(env: map<string, string>, name: string, default: string): string {
    if name in env then env[name] else default
  }

  /** Python's `os.getenv(name)`: `None` when the variable is unset. */
  function Lookup(env: map<string, string>, name: string): Option<string> {
    if name in env then Some(env[name]) else None
  }

  /** The accepted truthy tokens, in lower case. */
  const Truthy: set<string> := {"1", "true", "yes", "on"}

  lemma TruthyLowerCase(t: string)
    requires t in Truthy
    ensures Lower(t) == t
  {
  }

  /** For a text already in lower case, lower-casing `x` gives it exactly when `x`
      equals it up to case. */
  lemma LowerMatches(x: string, t: string)
    requires Lower(t) == t
    ensures Lower(x) == t <==> EqualsIgnoreCase(x, t)
  {
    if EqualsIgnoreCase(x, t) {
      assert forall k :: 0 <= k < |t| ==> LowerChar(t[k]) == t[k] by {
        forall k | 0 <= k < |t| ensures LowerChar(t[k]) == t[k] {
          assert Lower(t)[k] == LowerChar(t[k]);
        }
      }
    }
  }

  /** The stripped value equals one of the truthy tokens up to case. */
  predicate IsTruthy(s: string) {
    EqualsIgnoreCase(s, "1") || EqualsIgnoreCase(s, "true") || EqualsIgnoreCase(s, "yes") ||
    EqualsIgnoreCase(s, "on")
  }

  /** `_as_bool`: true exactly when the value is set and, stripped, equals one of the
      truthy tokens up to case. */
  function AsBool(value: Option<string>): (r: bool)
    ensures r <==> value.Some? && IsTruthy(Strip(value.value))
  {
    var s := Strip(value.GetOr(""));
    var low := Lower(s);
    assert value.None? ==> s == "" by {
      if value.None? { StripNoop(""); }
    }
    TruthyLowerCase("1");
    TruthyLowerCase("true");
    TruthyLowerCase("yes");
    TruthyLowerCase("on");
    LowerMatches(s, "1");
    LowerMatches(s, "true");
    LowerMatches(s, "yes");
    LowerMatches(s, "on");
    low in Truthy
  }

  /** An unset or empty flag is off. */
  lemma AsBoolUnset()
    ensures !AsBool(None) && !AsBool(Some(""))
  {
    StripNoop("");
  }

  /** Whitespace around the flag's value does not change it. */
  lemma AsBoolIgnoresPadding(pre: string, v: string, post: string)
    requires AllSpace(pre) && AllSpace(post)
    ensures AsBool(Some(pre + v + post)) == AsBool(Some(v))
  {
    StripPadding(pre, v, post);
  }

  /** The tokens are matched regardless of case. */
  lemma AsBoolUpperCase()
    ensures AsBool(Some("TRUE"))
  {
    var v: Option<string> := Some("TRUE");
    StripNoop("TRUE");
    assert Strip(v.value) == "TRUE";
    assert EqualsIgnoreCase("TRUE", "true");
    assert IsTruthy(Strip(v.value));
  }

  /** "0" is not a truthy token. */
  lemma AsBoolZero()
    ensures !AsBool(Some("0"))
  {
    StripNoop("0");
  }

  /** `ChatGPTConfig`. */
  datatype Settings = Settings(apiKey: string, model: string, industriesFile: string, companiesFile: string,
                               brandsFile: string, datasetFile: string, maxCompaniesPerIndustry: int,
                               maxBrandsPerCompany: int, country: string, countrySpecific: bool)

  /** The required settings, in the order they are checked. */
  const Required: seq<string> :=
    ["OPENAI_API_KEY", "GPT_MODEL", "INDUSTRIES_FILE", "COMPANIES_FILE", "BRANDS_FILE", "DATASET_FILE"]

  /** A required setting counts as present when its stripped value is not empty. */
  predicate Present(env: map<string, string>, name: string) {
    Strip(Getenv(env, name, "")) != ""
  }

  function MissingMessage(name: string): string {
    name + " not set in environment"
  }

  /** `need(name)`: the stripped value, or the error naming the setting. */
  function Need(env: map<string, string>, name: string): (r: Result<string>)
    ensures r.Success? <==> Present(env, name)
    ensures r.Success? ==> r.value == Strip(Getenv(env, name, ""))
    ensures r.Failure? ==> r.error == MissingMessage(name)
  {
    var v := Strip(Getenv(env, name, ""));
    if v == "" then Failure(MissingMessage(name)) else Success(v)
  }

  /** `int(os.getenv(name, "0") or 0)`: 0 when unset or empty, otherwise the parsed
      integer; text that is not an integer raises `ValueError`. */
  function Limit(env: map<string, string>, name: string): (r: Result<int>)
    ensures Getenv(env, name, "") == "" ==> r == Success(0)
    ensures Getenv(env, name, "") != "" ==>
              (r.Success? <==> Decimal.ParseInt(env[name]).Some?) &&
              (r.Success? ==> Some(r.value) == Decimal.ParseInt(env[name]))
  {
    if name !in env || env[name] == "" then Success(0)
    else
      var p := Decimal.ParseInt(env[name]);
      if p.Some? then Success(p.value)
      else Failure("invalid literal for int() with base 10: '" + env[name] + "'")
  }

  /** The `need` calls in order: the stripped values of all the settings, or the error
      of the first one that is missing. */
  function NeedAll(env: map<string, string>, names: seq<string>): (r: Result<seq<string>>)
    ensures r.Success? <==> forall i :: 0 <= i < |names| ==> Present(env, names[i])
    ensures r.Success? ==> |r.value| == |names|
    ensures r.Success? ==> forall i :: 0 <= i < |names| ==> r.value[i] == Strip(Getenv(env, names[i], ""))
  {
    if names == [] then Success([])
    else
      var first := Need(env, names[0]);
      if first.Failure? then Failure(first.error)
      else
        var rest := NeedAll(env, names[1..]);
        if rest.Failure? then rest else Success([first.value] + rest.value)
  }

  /** When the setting at position `i` is the first one missing, its error is the one
      reported. */
  lemma {:induction false} NeedAllFirstMissing(env: map<string, string>, names: seq<string>, i: nat)
    requires i < |names| && !Present(env, names[i])
    requires forall j :: 0 <= j < i ==> Present(env, names[j])
    ensures NeedAll(env, names) == Failure(MissingMessage(names[i]))
  {
    if i > 0 {
      assert Present(env, names[0]);
      assert forall j :: 0 <= j < i - 1 ==> names[1..][j] == names[j + 1];
      NeedAllFirstMissing(env, names[1..], i - 1);
    }
  }

  /** `get_config`: the required settings are checked in order and the first missing
      one raises; the limits may raise next; on success every text setting is stored
      stripped. */
  function GetConfig(env: map<string, string>): (r: Result<Settings>)
    ensures forall i :: 0 <= i < |Required| && !Present(env, Required[i]) &&
                        (forall j :: 0 <= j < i ==> Present(env, Required[j])) ==>
              r == Failure(MissingMessage(Required[i]))
    ensures r.Success? <==>
              (forall i :: 0 <= i < |Required| ==> Present(env, Required[i])) &&
              Limit(env, "MAX_COMPANIES_PER_INDUSTRY").Success? && Limit(env, "MAX_BRANDS_PER_COMPANY").Success?
    ensures r.Success? ==>
              && r.value.apiKey == Strip(Getenv(env, "OPENAI_API_KEY", ""))
              && r.value.model == Strip(Getenv(env, "GPT_MODEL", ""))
              && r.value.industriesFile == Strip(Getenv(env, "INDUSTRIES_FILE", ""))
              && r.value.companiesFile == Strip(Getenv(env, "COMPANIES_FILE", ""))
              && r.value.brandsFile == Strip(Getenv(env, "BRANDS_FILE", ""))
              && r.value.datasetFile == Strip(Getenv(env, "DATASET_FILE", ""))
              && r.value.maxCompaniesPerIndustry == Limit(env, "MAX_COMPANIES_PER_INDUSTRY").value
              && r.value.maxBrandsPerCompany == Limit(env, "MAX_BRANDS_PER_COMPANY").value
              && r.value.country == Strip(Getenv(env, "COUNTRY", ""))
              && r.value.countrySpecific == AsBool(Lookup(env, "COUNTRY_SPECIFIC"))
  {
    var required := NeedAll(env, Required);
    assert forall i :: 0 <= i < |Required| && !Present(env, Required[i]) &&
                       (forall j :: 0 <= j < i ==> Present(env, Required[j])) ==>
             required == Failure(MissingMessage(Required[i])) by {
      forall i | 0 <= i < |Required| && !Present(env, Required[i]) &&
                 (forall j :: 0 <= j < i ==> Present(env, Required[j]))
      {
        NeedAllFirstMissing(env, Required, i);
      }
    }
    var maxCompanies := Limit(env, "MAX_COMPANIES_PER_INDUSTRY");
    var maxBrands := Limit(env, "MAX_BRANDS_PER_COMPANY");
    if required.Failure? then Failure(required.error)
    else if maxCompanies.Failure? then Failure(maxCompanies.error)
    else if maxBrands.Failure? then Failure(maxBrands.error)
    else
      var v := required.value;
      Success(Settings(v[0], v[1], v[2], v[3], v[4], v[5], maxCompanies.value, maxBrands.value,
                       Strip(Getenv(env, "COUNTRY", "")), AsBool(Lookup(env, "COUNTRY_SPECIFIC"))))
  }

  /** A value made only of whitespace counts as missing. */
  lemma BlankIsMissing(env: map<string, string>, name: string)
    requires name in env && AllSpace(env[name])
    ensures !Present(env, name)
  {
    StripPadding(env[name], "", []);
    assert env[name] + "" + [] == env[name];
    StripNoop("");
  }

  /** With every required setting present and the limits unset, the configuration is
      accepted with both limits 0, and with no country and the flag off when those are
      unset too. */
  lemma DefaultsWhenUnset(env: map<string, string>)
    requires forall i :: 0 <= i < |Required| ==> Present(env, Required[i])
    requires "MAX_COMPANIES_PER_INDUSTRY" !in env && "MAX_BRANDS_PER_COMPANY" !in env
    requires "COUNTRY" !in env && "COUNTRY_SPECIFIC" !in env
    ensures GetConfig(env).Success?
    ensures GetConfig(env).value.maxCompaniesPerIndustry == 0 && GetConfig(env).value.maxBrandsPerCompany == 0
    ensures GetConfig(env).value.country == "" && !GetConfig(env).value.countrySpecific
  {
    StripNoop("");
  }

  /** A limit set to whitespace only is neither unset nor empty, so `int()` sees it and
      raises. */
  lemma BlankLimitRaises(env: map<string, string>, name: string)
    requires name in env && env[name] != "" && AllSpace(env[name])
    ensures Limit(env, name).Failure?
  {
    StripPadding(env[name], "", []);
    assert env[name] + "" + [] == env[name];
    StripNoop("");
  }
}
