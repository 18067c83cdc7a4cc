/**
 * The configuration helpers of cmd/nvidia-license-server-exporter/main.go. The process
 * environment is a map from variable names to values (an unset variable reads as ""), the
 * host-name lookup is its result, and the integer and duration parsers (`fmt.Sscanf` with "%d"
 * and `time.ParseDuration`) are partial functions passed in; `strconv.ParseBool` is written out.
 */
module Startup {
  import opened Results
  import opened Text
  import opened GoTime
  import opened ClsClient

  type Env = map<string, string>

  /** `os.Getenv`: the value, or "" when the variable is unset. */
  function Lookup(env: Env, key: string): string {
    if key in env then env[key] else ""
  }

  /** `getenv`: the trimmed value, or the fallback when nothing is left. */
  function Getenv(env: Env, key: string, fallback: string): string {
    var value := TrimSpace(Lookup(env, key));
    if value == "" then fallback else value
  }

  /** A blank or unset variable yields the fallback; any other is read trimmed. */
  lemma GetenvSpec(env: Env, key: string, fallback: string)
    ensures IsBlank(Lookup(env, key)) ==> Getenv(env, key, fallback) == fallback
    ensures !IsBlank(Lookup(env, key)) ==>
              var r := Getenv(env, key, fallback);
              r == TrimSpace(Lookup(env, key)) && r != "" && !IsSpace(r[0]) && !IsSpace(r[|r| - 1])
  {
    TrimSpaceSpec(Lookup(env, key));
  }

  /**
   * The shared shape of `intFromEnv`, `boolFromEnv` and `durationFromEnv`: the fallback when
   * the trimmed value is empty or does not parse, the parsed value otherwise.
   */
  function FromEnv<T>(env: Env, key: string, fallback: T, parse: string -> Option<T>): T {
    var raw := TrimSpace(Lookup(env, key));
    if raw == "" then fallback
    else
      match parse(raw)
      case None => fallback
      case Some(v) => v
  }

  lemma FromEnvSpec<T>(env: Env, key: string, fallback: T, parse: string -> Option<T>)
    ensures IsBlank(Lookup(env, key)) ==> FromEnv(env, key, fallback, parse) == fallback
    ensures !IsBlank(Lookup(env, key)) && parse(TrimSpace(Lookup(env, key))).None? ==>
              FromEnv(env, key, fallback, parse) == fallback
    ensures !IsBlank(Lookup(env, key)) && parse(TrimSpace(Lookup(env, key))).Some? ==>
              FromEnv(env, key, fallback, parse) == parse(TrimSpace(Lookup(env, key))).value
  {
    TrimSpaceSpec(Lookup(env, key));
  }

  /** `intFromEnv`, with `scanInt` standing for `fmt.Sscanf(raw, "%d", &value)`. */
  function IntFromEnv(env: Env, key: string, fallback: int, scanInt: string -> Option<int>): int {
    FromEnv(env, key, fallback, scanInt)
  }

  /** `durationFromEnv`, with `parseDuration` standing for `time.ParseDuration`. */
  function DurationFromEnv(env: Env, key: string, fallback: Duration, parseDuration: string -> Option<Duration>)
    : Duration
  {
    FromEnv(env, key, fallback, parseDuration)
  }

  /** `strconv.ParseBool`. */
  function ParseBool(s: string): (r: Option<bool>)
  {
    if s == "1" || s == "t" || s == "T" || s == "TRUE" || s == "true" || s == "True" then Some(true)
    else if s == "0" || s == "f" || s == "F" || s == "FALSE" || s == "false" || s == "False" then Some(false)
    else None
  }

  /** `boolFromEnv`. */
  function BoolFromEnv(env: Env, key: string, fallback: bool): bool {
    FromEnv(env, key, fallback, ParseBool)
  }

  /** An unset variable gives the fallback, and "false" (however padded) reads as false. */
  lemma BoolFromEnvExamples(env: Env, key: string, pad: string)
    requires IsBlank(pad)
    ensures BoolFromEnv(env - {key}, key, true) == true
    ensures BoolFromEnv(env[key := pad + "false"], key, true) == false
  {
    TrimSpaceSpec(Lookup(env - {key}, key));
    TrimSpaceCutsOnlySpace(pad + "false");
    var s := pad + "false";
    var i := LeadingSpace(s);
    var r := TrimSpace(s);
    assert s[|pad|..] == "false";
    assert s[|pad|] == 'f' && !IsSpace(s[|pad|]);
    TrimSpaceSpec(s);
    assert r != [] && r[0] == s[i];
    assert forall k :: 0 <= k < |pad| ==> s[k] == pad[k];
    assert s[|s| - 1] == 'e';
    if i < |pad| {
      assert false;
    }
    if i > |pad| {
      assert false;
    }
    if i + |r| < |s| {
      assert false;
    }
    assert r == s[|pad|..];
  }

  /** `hostnameOrUnknown`: the host name, unless the lookup failed or returned a blank name. */
  function HostnameOrUnknown(lookup: Result<string, string>): (host: string)
    ensures lookup.Failure? ==> host == "unknown"
    ensures lookup.Success? && IsBlank(lookup.value) ==> host == "unknown"
    ensures lookup.Success? && !IsBlank(lookup.value) ==> host == lookup.value
  {
    if lookup.Failure? then "unknown"
    else
      TrimSpaceSpec(lookup.value);
      if TrimSpace(lookup.value) == "" then "unknown" else lookup.value
  }

  /** The first value that is not blank, as given (untrimmed), or "" when every value is blank. */
  function FirstNonEmptyOf(values: seq<string>): string {
    if values == [] then ""
    else if TrimSpace(values[0]) != "" then values[0]
    else FirstNonEmptyOf(values[1..])
  }

  /**
   * `FirstNonEmptyOf` picks the value at the first non-blank position, untrimmed, and is empty
   * exactly when every value is blank; trimming it gives what `firstNonEmptyNonBlank` returns.
   */
  lemma {:induction false} FirstNonEmptySpec(values: seq<string>)
    ensures var i := FirstNonBlankIndex(values);
            && (i < |values| ==> FirstNonEmptyOf(values) == values[i])
            && (i == |values| ==> FirstNonEmptyOf(values) == "")
    ensures FirstNonEmptyOf(values) == "" <==> forall j :: 0 <= j < |values| ==> IsBlank(values[j])
    ensures TrimSpace(FirstNonEmptyOf(values)) == FirstNonBlank(values)
  {
    FirstNonBlankSpec(values);
    if values != [] {
      TrimSpaceSpec(values[0]);
      if TrimSpace(values[0]) == "" {
        FirstNonEmptySpec(values[1..]);
        assert forall j :: 1 <= j < |values| ==> values[j] == values[1..][j - 1];
      }
    } else {
      TrimSpaceSpec("");
    }
  }

  /** `firstNonEmpty`: scans the values in order and returns the first non-blank one as given. */
  method FirstNonEmpty(values: seq<string>) returns (r: string)
    ensures r == FirstNonEmptyOf(values)
  {
    var i := 0;
    while i < |values|
      invariant 0 <= i <= |values|
      invariant FirstNonEmptyOf(values[i..]) == FirstNonEmptyOf(values)
    {
      assert values[i..][1..] == values[i + 1..];
      if TrimSpace(values[i]) != "" {
        return values[i];
      }
      i := i + 1;
    }
    return "";
  }

  /**
   * The org name and API key are read from a primary variable with a legacy one as fallback:
   * the result is the trimmed primary value unless it is blank, and then the trimmed legacy one.
   */
  lemma PrimaryThenLegacy(env: Env, primary: string, legacy: string)
    ensures FirstNonEmptyOf([Getenv(env, primary, ""), Getenv(env, legacy, "")])
            == FirstNonBlank([Lookup(env, primary), Lookup(env, legacy)])
  {
    var a, b := Lookup(env, primary), Lookup(env, legacy);
    var ga, gb := Getenv(env, primary, ""), Getenv(env, legacy, "");
    TrimSpaceSpec(a);
    TrimSpaceSpec(b);
    TrimSpaceIdempotent(a);
    TrimSpaceIdempotent(b);
    TrimSpaceSpec("");
    assert [ga, gb][1..] == [gb] && [a, b][1..] == [b];
    assert [gb][1..] == [] && [b][1..] == [];
    assert FirstNonEmptyOf([gb]) == FirstNonBlank([b]);
  }

  /** `defaultListenAddress` from the raw values of `LISTEN_ADDRESS` and `PORT`. */
  function ListenAddress(listenAddress: string, port: string): string {
    var v := TrimSpace(listenAddress);
    if v != "" then v
    else
      var p := TrimSpace(port);
      if p != "" then (if HasPrefix(p, ":") then p else ":" + p)
      else ":9844"
  }

  function DefaultListenAddress(env: Env): string {
    ListenAddress(Lookup(env, "LISTEN_ADDRESS"), Lookup(env, "PORT"))
  }

  /**
   * A non-blank `LISTEN_ADDRESS` wins, trimmed; otherwise a non-blank `PORT`, trimmed, with a
   * leading ':' added unless it has one; otherwise ":9844". The result always names a port
   * when it comes from `PORT` or the default.
   */
  lemma ListenAddressSpec(listenAddress: string, port: string)
    ensures var r := ListenAddress(listenAddress, port);
            && r != ""
            && (!IsBlank(listenAddress) ==> r == TrimSpace(listenAddress))
            && (IsBlank(listenAddress) && !IsBlank(port) && HasPrefix(TrimSpace(port), ":") ==> r == TrimSpace(port))
            && (IsBlank(listenAddress) && !IsBlank(port) && !HasPrefix(TrimSpace(port), ":") ==> r == ":" + TrimSpace(port))
            && (IsBlank(listenAddress) && IsBlank(port) ==> r == ":9844")
            && (IsBlank(listenAddress) ==> r[0] == ':')
  {
    TrimSpaceSpec(listenAddress);
    TrimSpaceSpec(port);
  }
}
