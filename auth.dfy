/** Configuration, the key-pair JWT claim set and the Cortex Analyst request
    (tools/health-mcp/src/health_mcp.py:38-45, 644-725). Loading the PEM key,
    hashing its public half and RS256 signing are foreign calls: the base64
    SHA-256 fingerprint is an input and signing is the parameter `sign`. */
module Auth {
  import opened Wrappers
  import opened Text

  /** The process configuration read once at start-up. */
  datatype Config = Config(
    user: Option<string>,
    account: Option<string>,
    privateKeyPath: Option<string>,
    warehouse: string,
    database: string,
    schema: string,
    role: string,
    semanticModelFile: string)

  /** `os.getenv(name)`. */
  function Env(env: map<string, string>, name: string): Option<string> {
    if name in env then Some(env[name]) else None
  }

  /** `os.getenv(name, default)`: the default applies only to an unset variable. */
  function EnvOr(env: map<string, string>, name: string, default: string): string {
    if name in env then env[name] else default
  }

  function LoadConfig(env: map<string, string>): Config {
    Config(
      Env(env, "SNOWFLAKE_USER"),
      Env(env, "SNOWFLAKE_ACCOUNT"),
      Env(env, "SNOWFLAKE_PRIVATE_KEY_PATH"),
      EnvOr(env, "SNOWFLAKE_WAREHOUSE", "COMPUTE_WH"),
      EnvOr(env, "SNOWFLAKE_DATABASE", "HEALTH_INTELLIGENCE"),
      EnvOr(env, "SNOWFLAKE_SCHEMA", "HEALTH_RECORDS"),
      EnvOr(env, "SNOWFLAKE_ROLE", "ACCOUNTADMIN"),
      EnvOr(env, "SNOWFLAKE_SEMANTIC_MODEL_FILE", "health_intelligence_semantic_model.yaml"))
  }

  /** `clean_account_identifier`: unless the account names a `.global` region, cut it
      at its first '.' when that is not the first character; then turn the
      remaining dots into '-' and upper-case. */
  function CleanAccountIdentifier(account: string): (r: string)
    ensures '.' !in r
  {
    var dot := Find(account, '.');
    var kept := if !IsSubstring(".global", account) && dot > 0 then account[..dot] else account;
    var dashed := Replace(kept, '.', "-");
    assert forall i :: 0 <= i < |dashed| ==> UpperChar(dashed[i]) != '.';
    Upper(dashed)
  }

  /** A clock reading: whole seconds since the epoch and the microsecond within it. */
  datatype Instant = Instant(seconds: int, microsecond: nat)

  /** `datetime.timestamp()`, as an exact number. */
  function Timestamp(t: Instant): real {
    t.seconds as real + t.microsecond as real / 1000000.0
  }

  /** Python `int(x)` of a float: truncation toward zero. */
  function TruncateToInt(x: real): int {
    if x >= 0.0 then x.Floor else -((-x).Floor)
  }

  /** `timedelta(minutes=59)`, in seconds. */
  const TokenLifetime: int := 59 * 60

  datatype Claims = Claims(iss: string, sub: string, iat: int, exp: int)

  /** The JWT payload: `sub` is ACCOUNT.USER, `iss` adds the key fingerprint. */
  function JwtClaims(account: string, user: string, fingerprint: string, now: Instant): Claims {
    var sub := CleanAccountIdentifier(account) + "." + Upper(user);
    Claims(
      sub + "." + ("SHA256:" + fingerprint),
      sub,
      TruncateToInt(Timestamp(now)),
      TruncateToInt(Timestamp(now) + TokenLifetime as real))
  }

  /** The issuer is the subject followed by `.SHA256:` and the fingerprint, and the
      subject splits at its first '.' into the cleaned account and the upper-cased user. */
  lemma ClaimsStructure(account: string, user: string, fingerprint: string, now: Instant)
    ensures var c := JwtClaims(account, user, fingerprint, now);
      && c.sub <= c.iss
      && c.iss[|c.sub|..] == ".SHA256:" + fingerprint
      && Find(c.sub, '.') == |CleanAccountIdentifier(account)|
      && c.sub[..Find(c.sub, '.')] == CleanAccountIdentifier(account)
      && c.sub[Find(c.sub, '.') + 1..] == Upper(user)
  {
    var clean := CleanAccountIdentifier(account);
    var c := JwtClaims(account, user, fingerprint, now);
    FindAfter(clean, Upper(user));
    IssuerSuffix(c.sub, fingerprint);
    assert c.sub[..|clean|] == clean;
    assert c.sub[|clean| + 1..] == Upper(user);
  }

  lemma IssuerSuffix(sub: string, fingerprint: string)
    ensures sub + "." + ("SHA256:" + fingerprint) == sub + (".SHA256:" + fingerprint)
  {
    assert "." + ("SHA256:" + fingerprint) == ".SHA256:" + fingerprint;
  }

  /** The first '.' of `a + "." + b` is the one after `a` when `a` has none. */
  lemma FindAfter(a: string, b: string)
    requires '.' !in a
    ensures Find(a + "." + b, '.') == |a|
  {
    assert (a + "." + b)[|a|] == '.';
  }

  /** For a clock at or after the epoch the token lives exactly 3540 seconds. */
  lemma ExpiryWindow(account: string, user: string, fingerprint: string, now: Instant)
    requires now.seconds >= 0 && now.microsecond < 1000000
    ensures var c := JwtClaims(account, user, fingerprint, now); c.exp - c.iat == 3540
  {
    var t := Timestamp(now);
    assert t >= 0.0;
    var f := t.Floor;
    assert f as real <= t < f as real + 1.0;
    assert (t + 3540.0).Floor == f + 3540;
  }

  /** The whole window rule: `int()` truncates both ends toward zero, so a token
      issued less than 3540 seconds before the epoch at a fractional second lives
      one second less (its issue time rounds up, its expiry down); every other
      clock reading gives 3540 seconds. */
  lemma TokenWindow(account: string, user: string, fingerprint: string, now: Instant)
    requires now.microsecond < 1000000
    ensures var c := JwtClaims(account, user, fingerprint, now);
      c.exp - c.iat == if -3540 <= now.seconds < 0 && now.microsecond > 0 then 3539 else 3540
  {
    var s := now.seconds;
    var t := Timestamp(now);
    var frac := now.microsecond as real / 1000000.0;
    assert t == s as real + frac && 0.0 <= frac < 1.0;
    if s >= 0 {
      ExpiryWindow(account, user, fingerprint, now);
    } else if now.microsecond == 0 {
      assert TruncateToInt(t) == s;
      assert TruncateToInt(t + 3540.0) == s + 3540;
    } else {
      assert (-t).Floor == -s - 1;
      if s >= -3540 {
        assert (t + 3540.0).Floor == s + 3540;
      } else {
        assert (-(t + 3540.0)).Floor == -s - 3541;
      }
    }
  }

  /** Before the epoch, within one token lifetime and at a fractional second, the
      window is one second shorter. */
  lemma PreEpochWindow(account: string, user: string, fingerprint: string, now: Instant)
    requires -3540 <= now.seconds < 0 && 0 < now.microsecond < 1000000
    ensures var c := JwtClaims(account, user, fingerprint, now); c.exp - c.iat == 3539
  {
    TokenWindow(account, user, fingerprint, now);
  }

  /** A regional account `name.region` (no `.global` in it) is cut to its upper-cased name. */
  lemma CleanRegionalAccount(name: string, region: string)
    requires name != [] && '.' !in name && !IsSubstring(".global", name + "." + region)
    ensures CleanAccountIdentifier(name + "." + region) == Upper(name)
  {
    FindAfter(name, region);
    assert (name + "." + region)[..|name|] == name;
  }

  /** An account naming a `.global` region keeps every character, dots turned into '-'. */
  lemma CleanGlobalAccount(account: string)
    requires IsSubstring(".global", account)
    ensures var r := CleanAccountIdentifier(account);
      && |r| == |account|
      && forall i :: 0 <= i < |account| ==> r[i] == UpperChar(if account[i] == '.' then '-' else account[i])
  {
  }

  /** An account without dots is only upper-cased. */
  lemma CleanAccountWithoutDot(account: string)
    requires '.' !in account
    ensures CleanAccountIdentifier(account) == Upper(account)
  {
  }

  /** A text missing one of a pattern's characters does not contain the pattern. */
  lemma {:induction false} AbsentCharRulesOutSubstring(sub: string, k: nat, s: string)
    requires k < |sub| && sub[k] !in s
    ensures !IsSubstring(sub, s)
  {
    if s != [] {
      assert sub[k] !in s[1..] by {
        assert forall i :: 0 <= i < |s| - 1 ==> s[1..][i] == s[i + 1];
      }
      AbsentCharRulesOutSubstring(sub, k, s[1..]);
    }
  }

  /** A regional account whose name and region have no 'g' (`abc123.us-east-1`) cannot
      name `.global`, so it is cut to its upper-cased name. */
  lemma CleanAccountWithoutG(name: string, region: string)
    requires name != [] && '.' !in name && 'g' !in name && 'g' !in region
    ensures CleanAccountIdentifier(name + "." + region) == Upper(name)
  {
    var account := name + "." + region;
    assert 'g' !in account by {
      assert forall i :: 0 <= i < |account| ==> account[i] in name || account[i] == '.' || account[i] in region;
    }
    AbsentCharRulesOutSubstring(".global", 1, account);
    CleanRegionalAccount(name, region);
  }

  /** The fully qualified semantic-model file: `@DB.SCHEMA.RAW_DATA/file`. */
  function StagePath(database: string, schema: string, fileName: string): string {
    "@" + database + "." + schema + ".RAW_DATA/" + fileName
  }

  /** Splits a text at its first '.'. */
  function SplitAtDot(s: string): Option<(string, string)> {
    var i := Find(s, '.');
    if i < 0 then None else Some((s[..i], s[i + 1..]))
  }

  lemma SplitAtDotAfter(a: string, b: string)
    requires '.' !in a
    ensures SplitAtDot(a + "." + b) == Some((a, b))
  {
    FindAfter(a, b);
    assert (a + "." + b)[..|a|] == a;
    assert (a + "." + b)[|a| + 1..] == b;
  }

  /** Reads a stage path back into database, schema and file name. */
  function ParseStagePath(p: string): Option<(string, string, string)> {
    if p == [] || p[0] != '@' then None
    else match SplitAtDot(p[1..])
      case None => None
      case Some((database, afterDatabase)) =>
        match SplitAtDot(afterDatabase)
        case None => None
        case Some((schema, afterSchema)) =>
          if "RAW_DATA/" <= afterSchema then Some((database, schema, afterSchema[9..])) else None
  }

  /** Database and schema identifiers without dots can be read back from the stage path. */
  lemma StagePathRoundTrip(database: string, schema: string, fileName: string)
    requires '.' !in database && '.' !in schema
    ensures ParseStagePath(StagePath(database, schema, fileName)) == Some((database, schema, fileName))
  {
    var file := "RAW_DATA/" + fileName;
    var tail := schema + "." + file;
    var p := StagePath(database, schema, fileName);
    assert p == "@" + (database + "." + tail);
    assert p[1..] == database + "." + tail;
    SplitAtDotAfter(database, tail);
    SplitAtDotAfter(schema, file);
    assert file[9..] == fileName;
  }

  /** With nothing configured the model file is the default one in HEALTH_INTELLIGENCE.HEALTH_RECORDS. */
  lemma DefaultStagePath()
    ensures var c := LoadConfig(map[]);
      StagePath(c.database, c.schema, c.semanticModelFile)
        == StagePath("HEALTH_INTELLIGENCE", "HEALTH_RECORDS", "health_intelligence_semantic_model.yaml")
  {
  }

  /** The POST that `call_cortex_analyst` sends. */
  datatype AnalystRequest = AnalystRequest(
    url: string,
    authorization: string,
    tokenType: string,
    timeoutMs: nat,
    role: string,
    text: string,
    semanticModelFile: string)

  /** `call_cortex_analyst` up to the POST. `keyFingerprint` is the base64 SHA-256 of the
      loaded key's DER public key, None when the key file cannot be read or parsed. An
      unset key path, user or account makes `expanduser`, `in` or `upper` raise. */
  function BuildAnalystRequest(cfg: Config, query: string, keyFingerprint: Option<string>,
                               now: Instant, sign: Claims -> string): (r: Outcome<AnalystRequest>)
    ensures r.Done? <==> cfg.privateKeyPath.Some? && keyFingerprint.Some? && cfg.account.Some? && cfg.user.Some?
    ensures r.Done? ==> r.value.semanticModelFile == StagePath(cfg.database, cfg.schema, cfg.semanticModelFile)
    ensures r.Done? ==>
      r.value.authorization == "Bearer " + sign(JwtClaims(cfg.account.value, cfg.user.value, keyFingerprint.value, now))
    ensures r.Done? ==>
      r.value.url == "https://" + Lower(cfg.account.value) + ".snowflakecomputing.com/api/v2/cortex/analyst/message"
    ensures r.Done? ==> r.value.text == query && r.value.role == "user"
    ensures r.Done? ==> r.value.timeoutMs == 60000 && r.value.tokenType == "KEYPAIR_JWT"
  {
    if cfg.privateKeyPath.None? || keyFingerprint.None? || cfg.account.None? || cfg.user.None? then Raised
    else
      var claims := JwtClaims(cfg.account.value, cfg.user.value, keyFingerprint.value, now);
      Done(AnalystRequest(
        "https://" + Lower(cfg.account.value) + ".snowflakecomputing.com/api/v2/cortex/analyst/message",
        "Bearer " + sign(claims),
        "KEYPAIR_JWT",
        60000,
        "user",
        query,
        StagePath(cfg.database, cfg.schema, cfg.semanticModelFile)))
  }
}
