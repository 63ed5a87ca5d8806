/** Configuration: the `${NAME}` substitution applied to the loaded YAML
    document, the JIRA token override for one named user, and the checks of
    `validate`. Reading the files and the YAML parser are left out; the
    environment is a map and the file-system test `Path.exists` a
    parameter. */
module Config {
  import opened Wrappers
  import opened Text
  import opened Dicts
  import opened Values

  type Env = map<string, string>

  // ------------------------------------------------------------ _substitute_env_vars

  /** The variable named by a whole-string `${NAME}` placeholder. */
  function Placeholder(s: string): (r: Option<string>)
    ensures r.Some? <==> StartsWith(s, "${") && EndsWith(s, "}")
    ensures r.Some? ==> s == "${" + r.value + "}"
  {
    if StartsWith(s, "${") && EndsWith(s, "}") then
      assert s[1] == '{';
      Some(s[2..|s| - 1])
    else None
  }

  function UnsetMessage(name: string): string {
    "Environment variable " + name + " is not set"
  }

  /** A string: a placeholder becomes the variable's value, or raises when
      the variable is unset; any other string is kept. */
  function SubstituteString(s: string, env: Env): (r: Result<Value>)
    ensures Placeholder(s).None? ==> r == Ok(Str(s))
    ensures Placeholder(s).Some? && Placeholder(s).value in env ==> r == Ok(Str(env[Placeholder(s).value]))
    ensures Placeholder(s).Some? && Placeholder(s).value !in env ==> r == Err(UnsetMessage(Placeholder(s).value))
  {
    match Placeholder(s)
    case None => Ok(Str(s))
    case Some(name) => if name in env then Ok(Str(env[name])) else Err(UnsetMessage(name))
  }

  /** `_substitute_env_vars`: dictionaries and lists are rebuilt with every
      member substituted, strings go through `SubstituteString`, and other
      scalars are kept. The first placeholder that raises ends it. */
  function Substitute(v: Value, env: Env): (r: Result<Value>)
    ensures !v.Object? && !v.List? && !v.Str? ==> r == Ok(v)
    ensures v.Str? ==> r == SubstituteString(v.s, env)
    ensures r.Ok? && v.List? ==> r.value.List? && |r.value.items| == |v.items|
    ensures r.Ok? && v.Object? ==> r.value.Object? && Keys(r.value.fields) == Keys(v.fields)
    decreases v, 2
  {
    match v
    case Object(fields) =>
      (match SubstituteFields(fields, env) case Ok(f) => Ok(Object(f)) case Err(e) => Err(e))
    case List(items) =>
      (match SubstituteItems(items, env) case Ok(xs) => Ok(List(xs)) case Err(e) => Err(e))
    case Str(s) => SubstituteString(s, env)
    case _ => Ok(v)
  }

  /** The list comprehension: each item is the substitution of the item in
      its place; an error is that of the first item that raises. */
  function SubstituteItems(items: seq<Value>, env: Env): (r: Result<seq<Value>>)
    ensures r.Ok? <==> forall i :: 0 <= i < |items| ==> Substitute(items[i], env).Ok?
    ensures r.Ok? ==> |r.value| == |items| && forall i :: 0 <= i < |items| ==> Substitute(items[i], env) == Ok(r.value[i])
    ensures r.Err? ==> exists i :: 0 <= i < |items| && Substitute(items[i], env) == Err(r.error)
                                   && forall j :: 0 <= j < i ==> Substitute(items[j], env).Ok?
    decreases items, 0
  {
    if |items| == 0 then Ok([])
    else
      match Substitute(items[0], env)
      case Err(e) => Err(e)
      case Ok(x) =>
        match SubstituteItems(items[1..], env)
        case Err(e) =>
          assert forall i :: 1 <= i < |items| ==> items[1..][i - 1] == items[i];
          Err(e)
        case Ok(xs) => Ok([x] + xs)
  }

  /** One `key: value` pair of a dictionary. */
  function SubstituteEntry(entry: (string, Value), env: Env): (r: Result<Value>)
    ensures r == Substitute(entry.1, env)
    decreases entry, 0
  {
    Substitute(entry.1, env)
  }

  /** The dictionary comprehension: the same keys in the same order, each
      with its value substituted. */
  function SubstituteFields(fields: Dict<Value>, env: Env): (r: Result<Dict<Value>>)
    ensures r.Ok? ==> Keys(r.value) == Keys(fields)
    decreases fields, 1
  {
    if |fields| == 0 then Ok([])
    else
      match SubstituteEntry(fields[0], env)
      case Err(e) => Err(e)
      case Ok(x) =>
        match SubstituteFields(fields[1..], env)
        case Err(e) => Err(e)
        case Ok(rest) =>
          KeysCons(fields[0].0, x, rest);
          KeysCons(fields[0].0, fields[0].1, fields[1..]);
          assert [(fields[0].0, fields[0].1)] + fields[1..] == fields;
          Ok([(fields[0].0, x)] + rest)
  }

  /** Each value of the rebuilt dictionary is the substitution of the value
      in its place; an error is that of the first value that raises. */
  lemma {:induction false} FieldsSubstituted(fields: Dict<Value>, env: Env)
    ensures var r := SubstituteFields(fields, env);
      && (r.Ok? <==> forall i :: 0 <= i < |fields| ==> Substitute(fields[i].1, env).Ok?)
      && (r.Ok? ==> |r.value| == |fields| && forall i :: 0 <= i < |fields| ==> Substitute(fields[i].1, env) == Ok(r.value[i].1))
      && (r.Err? ==> exists i :: 0 <= i < |fields| && Substitute(fields[i].1, env) == Err(r.error)
                                 && forall j :: 0 <= j < i ==> Substitute(fields[j].1, env).Ok?)
  {
    if |fields| > 0 {
      FieldsSubstituted(fields[1..], env);
      assert forall i :: 1 <= i < |fields| ==> fields[1..][i - 1] == fields[i];
      var r := SubstituteFields(fields, env);
      if r.Ok? {
        assert |Keys(r.value)| == |Keys(fields)|;
      }
      if Substitute(fields[0].1, env).Ok? && SubstituteFields(fields[1..], env).Err? {
        var i :| 0 <= i < |fields| - 1 && Substitute(fields[1..][i].1, env) == Err(r.error)
                 && forall j :: 0 <= j < i ==> Substitute(fields[1..][j].1, env).Ok?;
        assert Substitute(fields[i + 1].1, env) == Err(r.error);
      }
    }
  }

  /** No string anywhere in `v` is a placeholder. */
  predicate NoPlaceholders(v: Value) {
    match v
    case Str(s) => Placeholder(s).None?
    case List(items) => forall i :: 0 <= i < |items| ==> NoPlaceholders(items[i])
    case Object(fields) => forall i :: 0 <= i < |fields| ==> NoPlaceholders(fields[i].1)
    case _ => true
  }

  /** A document without placeholders comes back unchanged. */
  lemma {:induction false} NoPlaceholdersKept(v: Value, env: Env)
    requires NoPlaceholders(v)
    ensures Substitute(v, env) == Ok(v)
  {
    match v
    case List(items) =>
      forall i | 0 <= i < |items| ensures Substitute(items[i], env) == Ok(items[i]) {
        NoPlaceholdersKept(items[i], env);
      }
      var r := SubstituteItems(items, env);
      assert r.value == items;
    case Object(fields) =>
      forall i | 0 <= i < |fields| ensures Substitute(fields[i].1, env) == Ok(fields[i].1) {
        NoPlaceholdersKept(fields[i].1, env);
      }
      FieldsSubstituted(fields, env);
      var r := SubstituteFields(fields, env);
      assert |r.value| == |Keys(r.value)| == |Keys(fields)|;
      assert forall i :: 0 <= i < |fields| ==> r.value[i].0 == Keys(r.value)[i] == Keys(fields)[i] == fields[i].0;
      assert forall i :: 0 <= i < |fields| ==> r.value[i] == fields[i];
      assert r.value == fields;
    case _ =>
  }

  /** When no variable's value is itself a placeholder, a substituted
      document has no placeholders left. */
  lemma {:induction false} SubstitutedHasNone(v: Value, env: Env)
    requires forall n :: n in env ==> Placeholder(env[n]).None?
    requires Substitute(v, env).Ok?
    ensures NoPlaceholders(Substitute(v, env).value)
  {
    match v
    case List(items) =>
      var xs := SubstituteItems(items, env).value;
      forall i | 0 <= i < |xs| ensures NoPlaceholders(xs[i]) {
        SubstitutedHasNone(items[i], env);
      }
    case Object(fields) =>
      FieldsSubstituted(fields, env);
      var f := SubstituteFields(fields, env).value;
      forall i | 0 <= i < |f| ensures NoPlaceholders(f[i].1) {
        SubstitutedHasNone(fields[i].1, env);
      }
    case _ =>
  }

  /** Substituting twice is substituting once, when no variable's value is
      itself a placeholder. */
  lemma SubstituteIdempotent(v: Value, env: Env)
    requires forall n :: n in env ==> Placeholder(env[n]).None?
    requires Substitute(v, env).Ok?
    ensures Substitute(Substitute(v, env).value, env) == Substitute(v, env)
  {
    SubstitutedHasNone(v, env);
    NoPlaceholdersKept(Substitute(v, env).value, env);
  }

  /** `${NAME}` becomes the value of `NAME`, and raises naming it when it
      is unset. */
  lemma PlaceholderReplaced(name: string, env: Env)
    ensures name in env ==> Substitute(Str("${" + name + "}"), env) == Ok(Str(env[name]))
    ensures name !in env ==> Substitute(Str("${" + name + "}"), env) == Err(UnsetMessage(name))
  {
    var s := "${" + name + "}";
    assert s[..2] == "${" && s[|s| - 1..] == "}";
    assert s[2..|s| - 1] == name;
  }

  // ------------------------------------------------------------ the user override in load

  const TokenVariable := "YASSA_JIRA_API_TOKEN"
  const OverrideUser := "yassa"
  const OverrideUsername := "yassa@surmount.ai"
  const MissingTokenMessage := "YASSA_JIRA_API_TOKEN not found in environment variables"

  /** The `TypeError` raised on reading `config_data['jira']` from a
      document that is not a dictionary. */
  function NotSubscriptable(v: Value): string {
    match v
    case List(_) => "list indices must be integers or slices, not str"
    case Str(_) => "string indices must be integers, not 'str'"
    case _ => "'" + TypeName(v) + "' object is not subscriptable"
  }

  /** The `TypeError` raised on assigning into a `jira` section that is not
      a dictionary. */
  function NotAssignable(v: Value): string {
    match v
    case List(_) => "list indices must be integers or slices, not str"
    case _ => "'" + TypeName(v) + "' object does not support item assignment"
  }

  /** The user-specific token: for the user `yassa` (any case), the `jira`
      section gets the token from the environment and the user's address;
      an unset or empty token raises. Any other user, or none (`""`), keeps
      the document. */
  function ApplyUser(data: Value, user: string, env: Env): (r: Result<Value>)
    ensures user == "" || Lower(user) != OverrideUser ==> r == Ok(data)
    ensures user != "" && Lower(user) == OverrideUser && (TokenVariable !in env || env[TokenVariable] == "") ==>
      r == Err(MissingTokenMessage)
  {
    if user != "" && Lower(user) == OverrideUser then
      if TokenVariable in env && env[TokenVariable] != "" then
        var token := env[TokenVariable];
        match data
        case Object(top) =>
          (match Get(top, "jira")
           case None => Err("'jira'")
           case Some(section) =>
             if section.Object? then
               var jira := Put(Put(section.fields, "api_token", Str(token)), "username", Str(OverrideUsername));
               Ok(Object(Put(top, "jira", Object(jira))))
             else Err(NotAssignable(section)))
        case _ => Err(NotSubscriptable(data))
      else Err(MissingTokenMessage)
    else Ok(data)
  }

  /** For the user `yassa`, the `jira` section holds the token and the
      address and keeps its other keys; the rest of the document is kept. */
  lemma OverrideSetsToken(top: Dict<Value>, jira: Dict<Value>, user: string, env: Env, other: string, key: string)
    requires Lower(user) == OverrideUser && TokenVariable in env && env[TokenVariable] != ""
    requires Get(top, "jira") == Some(Object(jira))
    ensures var r := ApplyUser(Object(top), user, env);
      && r.Ok? && r.value.Object? && Get(r.value.fields, "jira").Some? && Get(r.value.fields, "jira").value.Object?
      && var j := Get(r.value.fields, "jira").value.fields;
      && Get(j, "api_token") == Some(Str(env[TokenVariable]))
      && Get(j, "username") == Some(Str(OverrideUsername))
      && (other != "api_token" && other != "username" ==> Get(j, other) == Get(jira, other))
      && (key != "jira" ==> Get(r.value.fields, key) == Get(top, key))
  {
    hide Put, Get, Lower;
    var token := env[TokenVariable];
    var withToken := Put(jira, "api_token", Str(token));
    var j := Put(withToken, "username", Str(OverrideUsername));
    assert user != "";
    assert ApplyUser(Object(top), user, env) == Ok(Object(Put(top, "jira", Object(j))));
    GetPut(top, "jira", Object(j), "jira");
    GetPut(top, "jira", Object(j), key);
    GetPut(jira, "api_token", Str(token), other);
    GetPut(jira, "api_token", Str(token), "api_token");
    GetPut(withToken, "username", Str(OverrideUsername), other);
    GetPut(withToken, "username", Str(OverrideUsername), "api_token");
  }

  /** The override looks at the user name only up to case. */
  lemma OverrideIgnoresCase(data: Value, user: string, env: Env)
    requires user != ""
    ensures ApplyUser(data, user, env) == ApplyUser(data, Lower(user), env)
  {
    LowerTwice(user);
  }

  lemma {:induction false} LowerTwice(s: string)
    ensures Lower(Lower(s)) == Lower(s)
  {
    if |s| > 0 {
      LowerTwice(s[1..]);
    }
  }

  /** What `load` does with the parsed document before building the
      sections: substitute, then apply the user override. */
  function Prepare(raw: Value, user: string, env: Env): (r: Result<Value>)
    ensures Substitute(raw, env).Err? ==> r == Err(Substitute(raw, env).error)
    ensures (user == "" || Lower(user) != OverrideUser) ==> r == Substitute(raw, env)
  {
    match Substitute(raw, env)
    case Err(e) => Err(e)
    case Ok(data) => ApplyUser(data, user, env)
  }

  // ------------------------------------------------------------ validate

  datatype JiraConfig = JiraConfig(baseUrl: string, username: string, apiToken: string)
  datatype DeepSeekConfig = DeepSeekConfig(apiKey: string, model: string, maxTokens: int, temperature: real)
  datatype ClaudeConfig = ClaudeConfig(cliPath: string)
  datatype SshServerConfig = SshServerConfig(host: string, username: string, keyPath: string, port: int)
  datatype DatabaseConfig = DatabaseConfig(connectionString: string, queryTimeout: int, maxConnections: int)
  datatype CodebaseConfig = CodebaseConfig(repoPath: string, gitEnabled: bool)
  datatype LoggingConfig = LoggingConfig(level: string, file: Option<string>, format: string)

  datatype Configuration = Configuration(
    jira: JiraConfig, deepseek: DeepSeekConfig, claude: ClaudeConfig, sshServers: seq<SshServerConfig>,
    database: DatabaseConfig, codebase: CodebaseConfig, logging: LoggingConfig, dryRun: bool)

  const BaseUrlRequired := "JIRA base_url is required"
  const ApiTokenRequired := "JIRA api_token is required"
  const ApiKeyRequired := "DeepSeek api_key is required"
  const ConnectionRequired := "Database connection_string is required"
  const FailurePrefix := "Configuration validation failed:\n"

  function CliMissing(path: string): (r: string)
    ensures |r| > 0 && r[0] == 'C'
  {
    "Claude CLI not found at " + path
  }

  function HostMissing(i: nat): (r: string)
    ensures |r| > 0 && r[0] == 'S'
  {
    "SSH server " + NatToString(i) + ": host is required"
  }

  function KeyMissing(i: nat, path: string): (r: string)
    ensures |r| > 0 && r[0] == 'S'
  {
    "SSH server " + NatToString(i) + ": key file not found at " + path
  }

  function RepoMissing(path: string): (r: string)
    ensures |r| > 0 && r[0] == 'C'
  {
    "Codebase repository not found at " + path
  }

  /** The errors of the sections checked before the servers. */
  function LeadingErrors(c: Configuration, pathExists: string -> bool): seq<string> {
    (if c.jira.baseUrl == "" then [BaseUrlRequired] else [])
    + (if c.jira.apiToken == "" then [ApiTokenRequired] else [])
    + (if c.deepseek.apiKey == "" then [ApiKeyRequired] else [])
    + (if !pathExists(c.claude.cliPath) then [CliMissing(c.claude.cliPath)] else [])
  }

  /** The errors of server number `i`. */
  function ServerErrors(i: nat, s: SshServerConfig, pathExists: string -> bool): seq<string> {
    (if s.host == "" then [HostMissing(i)] else [])
    + (if s.keyPath != "" && !pathExists(s.keyPath) then [KeyMissing(i, s.keyPath)] else [])
  }

  /** The errors of the servers, in order. */
  function AllServerErrors(servers: seq<SshServerConfig>, pathExists: string -> bool): seq<string> {
    if |servers| == 0 then []
    else
      var n := |servers| - 1;
      AllServerErrors(servers[..n], pathExists) + ServerErrors(n, servers[n], pathExists)
  }

  /** The errors of the sections checked after the servers. */
  function TrailingErrors(c: Configuration, pathExists: string -> bool): seq<string> {
    (if c.database.connectionString == "" then [ConnectionRequired] else [])
    + (if !pathExists(c.codebase.repoPath) then [RepoMissing(c.codebase.repoPath)] else [])
  }

  /** Every failed check, in the order `validate` makes them. */
  function ValidationErrors(c: Configuration, pathExists: string -> bool): seq<string> {
    LeadingErrors(c, pathExists) + AllServerErrors(c.sshServers, pathExists) + TrailingErrors(c, pathExists)
  }

  /** Each error on a line of its own after `  - `. */
  function Bulleted(errors: seq<string>): (r: seq<string>)
    ensures |r| == |errors| && forall i :: 0 <= i < |errors| ==> r[i] == "  - " + errors[i]
  {
    seq(|errors|, i requires 0 <= i < |errors| => "  - " + errors[i])
  }

  /** What `validate` does: return, or raise `ValueError` with the list. */
  function Outcome(errors: seq<string>): Result<()> {
    if |errors| == 0 then Ok(()) else Err(FailurePrefix + Join("\n", Bulleted(errors)))
  }

  method Validate(c: Configuration, pathExists: string -> bool) returns (r: Result<()>)
    ensures r == Outcome(ValidationErrors(c, pathExists))
  {
    hide LeadingErrors, AllServerErrors, TrailingErrors, Bulleted, Join;
    var errors := CheckLeading(c, pathExists);
    errors := CheckServers(errors, c.sshServers, pathExists);
    errors := CheckTrailing(errors, c, pathExists);
    if |errors| > 0 {
      r := Err(FailurePrefix + Join("\n", Bulleted(errors)));
    } else {
      r := Ok(());
    }
  }

  /** The JIRA, DeepSeek and Claude checks. */
  method CheckLeading(c: Configuration, pathExists: string -> bool) returns (errors: seq<string>)
    ensures errors == LeadingErrors(c, pathExists)
  {
    hide CliMissing;
    errors := [];
    if c.jira.baseUrl == "" {
      errors := errors + [BaseUrlRequired];
    }
    if c.jira.apiToken == "" {
      errors := errors + [ApiTokenRequired];
    }
    if c.deepseek.apiKey == "" {
      errors := errors + [ApiKeyRequired];
    }
    if !pathExists(c.claude.cliPath) {
      errors := errors + [CliMissing(c.claude.cliPath)];
    }
  }

  /** The loop over the servers, appending to `errors`. */
  method CheckServers(errors0: seq<string>, servers: seq<SshServerConfig>, pathExists: string -> bool)
    returns (errors: seq<string>)
    ensures errors == errors0 + AllServerErrors(servers, pathExists)
  {
    hide HostMissing, KeyMissing;
    errors := errors0;
    for i := 0 to |servers|
      invariant errors == errors0 + AllServerErrors(servers[..i], pathExists)
    {
      ServersStep(servers, i, pathExists);
      var server := servers[i];
      var before := errors;
      if server.host == "" {
        errors := errors + [HostMissing(i)];
      }
      if server.keyPath != "" && !pathExists(server.keyPath) {
        errors := errors + [KeyMissing(i, server.keyPath)];
      }
      assert errors == before + ServerErrors(i, server, pathExists);
    }
    assert servers[..|servers|] == servers;
  }

  /** The database and codebase checks, appending to `errors`. */
  method CheckTrailing(errors0: seq<string>, c: Configuration, pathExists: string -> bool)
    returns (errors: seq<string>)
    ensures errors == errors0 + TrailingErrors(c, pathExists)
  {
    hide RepoMissing;
    errors := errors0;
    if c.database.connectionString == "" {
      errors := errors + [ConnectionRequired];
    }
    if !pathExists(c.codebase.repoPath) {
      errors := errors + [RepoMissing(c.codebase.repoPath)];
    }
  }

  lemma ServersStep(servers: seq<SshServerConfig>, i: nat, pathExists: string -> bool)
    requires i < |servers|
    ensures AllServerErrors(servers[..i + 1], pathExists)
            == AllServerErrors(servers[..i], pathExists) + ServerErrors(i, servers[i], pathExists)
  {
    hide ServerErrors;
    assert servers[..i + 1][..i] == servers[..i];
  }

  /** Every check passes: the reference the error list is measured against. */
  predicate Valid(c: Configuration, pathExists: string -> bool) {
    && c.jira.baseUrl != "" && c.jira.apiToken != "" && c.deepseek.apiKey != "" && pathExists(c.claude.cliPath)
    && (forall i :: 0 <= i < |c.sshServers| ==>
          c.sshServers[i].host != "" && (c.sshServers[i].keyPath == "" || pathExists(c.sshServers[i].keyPath)))
    && c.database.connectionString != "" && pathExists(c.codebase.repoPath)
  }

  lemma {:induction false} NoServerErrorsIff(servers: seq<SshServerConfig>, pathExists: string -> bool)
    ensures AllServerErrors(servers, pathExists) == [] <==>
      forall i :: 0 <= i < |servers| ==> servers[i].host != "" && (servers[i].keyPath == "" || pathExists(servers[i].keyPath))
  {
    hide HostMissing, KeyMissing;
    if |servers| > 0 {
      var n := |servers| - 1;
      NoServerErrorsIff(servers[..n], pathExists);
      assert forall i :: 0 <= i < n ==> servers[..n][i] == servers[i];
    }
  }

  /** `validate` returns exactly when every check passes. */
  lemma ValidateOkIff(c: Configuration, pathExists: string -> bool)
    ensures Outcome(ValidationErrors(c, pathExists)).Ok? <==> Valid(c, pathExists)
  {
    hide CliMissing, RepoMissing, AllServerErrors, Join;
    NoServerErrorsIff(c.sshServers, pathExists);
  }

  /** The raised message is the heading followed by one line per error,
      `  - <error>`, in order: splitting it at the line breaks gives the
      lines back, when no error spans lines itself. */
  lemma FailureLines(errors: seq<string>)
    requires |errors| > 0 && forall i :: 0 <= i < |errors| ==> '\n' !in errors[i]
    ensures var r := Outcome(errors);
      && r.Err? && StartsWith(r.error, FailurePrefix)
      && Split(r.error[|FailurePrefix|..], '\n') == Bulleted(errors)
  {
    hide Join, Split;
    var lines := Bulleted(errors);
    forall i | 0 <= i < |lines| ensures '\n' !in lines[i] {
      assert lines[i] == "  - " + errors[i];
    }
    SplitJoin(lines, '\n');
    var body := Join("\n", lines);
    assert "\n" == ['\n'];
    StartsWithConcat(FailurePrefix, body);
    assert (FailurePrefix + body)[|FailurePrefix|..] == body;
  }

  lemma {:induction false} ServerErrorsStartS(servers: seq<SshServerConfig>, pathExists: string -> bool)
    ensures forall e :: e in AllServerErrors(servers, pathExists) ==> |e| > 0 && e[0] == 'S'
  {
    hide HostMissing, KeyMissing;
    if |servers| > 0 {
      var n := |servers| - 1;
      ServerErrorsStartS(servers[..n], pathExists);
      assert forall e :: e in ServerErrors(n, servers[n], pathExists) ==> |e| > 0 && e[0] == 'S';
    }
  }

  lemma LeadingRequired(c: Configuration, pathExists: string -> bool)
    ensures BaseUrlRequired in LeadingErrors(c, pathExists) <==> c.jira.baseUrl == ""
    ensures ApiTokenRequired in LeadingErrors(c, pathExists) <==> c.jira.apiToken == ""
    ensures ApiKeyRequired in LeadingErrors(c, pathExists) <==> c.deepseek.apiKey == ""
    ensures ConnectionRequired !in LeadingErrors(c, pathExists)
  {
    hide CliMissing;
    assert |BaseUrlRequired| == 25 && |ApiTokenRequired| == 26 && |ApiKeyRequired| == 28 && |ConnectionRequired| == 38;
    assert BaseUrlRequired[0] == 'J' && ApiTokenRequired[0] == 'J' && ApiKeyRequired[0] == 'D' && ConnectionRequired[0] == 'D';
  }

  lemma TrailingRequired(c: Configuration, pathExists: string -> bool)
    ensures BaseUrlRequired !in TrailingErrors(c, pathExists)
    ensures ApiTokenRequired !in TrailingErrors(c, pathExists)
    ensures ApiKeyRequired !in TrailingErrors(c, pathExists)
    ensures ConnectionRequired in TrailingErrors(c, pathExists) <==> c.database.connectionString == ""
  {
    hide RepoMissing;
    assert |BaseUrlRequired| == 25 && |ApiTokenRequired| == 26 && |ApiKeyRequired| == 28 && |ConnectionRequired| == 38;
    assert BaseUrlRequired[0] == 'J' && ApiTokenRequired[0] == 'J' && ApiKeyRequired[0] == 'D';
  }

  /** Each required text field contributes its error exactly when it is
      empty. */
  lemma RequiredFieldErrors(c: Configuration, pathExists: string -> bool)
    ensures BaseUrlRequired in ValidationErrors(c, pathExists) <==> c.jira.baseUrl == ""
    ensures ApiTokenRequired in ValidationErrors(c, pathExists) <==> c.jira.apiToken == ""
    ensures ApiKeyRequired in ValidationErrors(c, pathExists) <==> c.deepseek.apiKey == ""
    ensures ConnectionRequired in ValidationErrors(c, pathExists) <==> c.database.connectionString == ""
  {
    hide AllServerErrors, LeadingErrors, TrailingErrors;
    ServerErrorsStartS(c.sshServers, pathExists);
    LeadingRequired(c, pathExists);
    TrailingRequired(c, pathExists);
    assert BaseUrlRequired[0] == 'J' && ApiTokenRequired[0] == 'J' && ApiKeyRequired[0] == 'D' && ConnectionRequired[0] == 'D';
  }
}
