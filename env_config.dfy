/** The environment-configuration loader of the newsletter-digest tool
    (src/config.ts).  The process environment is an explicit map, and every
    `throw` of the source is a `Failure`.  Loading has two stages:

    1. `ParseAccounts` reads `GMAIL_ACCOUNTS`, a comma-separated list of
       account names, checks each name and looks up the refresh token
       `GMAIL_REFRESH_TOKEN_<NAME>` of each account.  It runs while the
       object handed to the schema is being built, so its errors come first.
    2. `LoadConfig` validates that object against the schema (required
       client credentials, the provider enumeration and the defaults), then
       checks that the selected AI provider has a non-empty API key. */
module EnvConfig {
  import opened Wrappers
  import opened Text

  /** The process environment: variable name to value. */
  type Env = map<string, string>

  const AccountsVar: string := "GMAIL_ACCOUNTS"
  const ClientIdVar: string := "GMAIL_CLIENT_ID"
  const ClientSecretVar: string := "GMAIL_CLIENT_SECRET"
  const ProviderVar: string := "AI_PROVIDER"
  const AnthropicKeyVar: string := "ANTHROPIC_API_KEY"
  const OpenAIKeyVar: string := "OPENAI_API_KEY"
  const GoogleKeyVar: string := "GOOGLE_GENERATIVE_AI_API_KEY"
  const LabelVar: string := "GMAIL_LABEL"
  const RecipientVar: string := "DIGEST_RECIPIENT"
  const RefreshTokenPrefix: string := "GMAIL_REFRESH_TOKEN_"

  const DefaultLabel: string := "Newsletters"
  const DefaultRecipient: string := "me"

  /** `process.env[name]`: the value, or `undefined` when unset. */
  function Get(env: Env, name: string): Option<string> {
    if name in env then Some(env[name]) else None
  }

  /** JavaScript truthiness of a `string | undefined`: set and non-empty. */
  predicate IsTruthy(v: Option<string>) {
    v.Some? && v.value != ""
  }

  /* ---------------------------------------------------------------------- */
  /* data model                                                              */
  /* ---------------------------------------------------------------------- */

  datatype Account = Account(name: string, refreshToken: string)

  datatype Provider = Anthropic | OpenAI | Google

  datatype GmailConfig = GmailConfig(clientId: string, clientSecret: string, accounts: seq<Account>)

  datatype AiConfig = AiConfig(
    provider: Provider,
    anthropicKey: Option<string>,
    openaiKey: Option<string>,
    googleKey: Option<string>)

  /** The `app` section.  The source calls the first field `label`, which is
      a reserved word in Dafny. */
  datatype AppConfig = AppConfig(gmailLabel: string, recipient: string)

  datatype Config = Config(gmail: GmailConfig, ai: AiConfig, app: AppConfig)

  /** Where in the schema a violation was found. */
  datatype Field =
    | ClientId
    | ClientSecret
    | Accounts
    | AccountName(index: nat)
    | AccountRefreshToken(index: nat)
    | AiProvider

  /** The kinds of schema violation the schema can raise here: a required
      string that is missing, a string shorter than its minimum (or an array
      with too few elements), and a value outside the provider enumeration. */
  datatype IssueKind = Required | TooSmall | InvalidEnumValue(received: string)

  datatype Issue = Issue(field: Field, kind: IssueKind)

  /** Everything loading can fail with.  A schema failure carries all of its
      violations, in the order of the schema's fields. */
  datatype ConfigError =
    | AccountsRequired
    | InvalidAccountName(name: string)
    | RefreshTokenRequired(envVar: string, account: string)
    | SchemaInvalid(issues: seq<Issue>)
    | ProviderKeyRequired(keyVar: string, provider: Provider)

  /* ---------------------------------------------------------------------- */
  /* providers                                                               */
  /* ---------------------------------------------------------------------- */

  /** The enumeration value that names a provider. */
  function ProviderName(p: Provider): string {
    match p
    case Anthropic => "anthropic"
    case OpenAI => "openai"
    case Google => "google"
  }

  /** Membership in the provider enumeration: the provider a string names,
      if any. */
  function ParseProvider(s: string): (r: Option<Provider>)
    ensures r.Some? ==> ProviderName(r.value) == s
    ensures forall p :: ProviderName(p) == s ==> r == Some(p)
    ensures r.None? <==> s != "anthropic" && s != "openai" && s != "google"
  {
    if s == "anthropic" then Some(Anthropic)
    else if s == "openai" then Some(OpenAI)
    else if s == "google" then Some(Google)
    else None
  }

  /** The provider `AI_PROVIDER` selects: the default when unset, otherwise
      the enumeration member it names (none for any other string, the empty
      string included). */
  function ResolveProvider(v: Option<string>): Option<Provider> {
    match v
    case None => Some(Anthropic)
    case Some(s) => ParseProvider(s)
  }

  /** The environment variable holding each provider's API key. */
  function ProviderKeyVar(p: Provider): string {
    match p
    case Anthropic => AnthropicKeyVar
    case OpenAI => OpenAIKeyVar
    case Google => GoogleKeyVar
  }

  /** The key field of the configuration that belongs to its provider. */
  function SelectedKey(ai: AiConfig): Option<string> {
    match ai.provider
    case Anthropic => ai.anthropicKey
    case OpenAI => ai.openaiKey
    case Google => ai.googleKey
  }

  /* ---------------------------------------------------------------------- */
  /* stage 1: accounts                                                       */
  /* ---------------------------------------------------------------------- */

  /** `filter((s) => s.length > 0)`: the non-empty pieces, in order. */
  function DropEmpty(parts: seq<string>): (r: seq<string>)
    ensures |r| <= |parts|
    ensures forall i :: 0 <= i < |r| ==> r[i] != ""
    ensures r == [] <==> forall i :: 0 <= i < |parts| ==> parts[i] == ""
  {
    if parts == [] then []
    else if parts[0] == "" then DropEmpty(parts[1..])
    else [parts[0]] + DropEmpty(parts[1..])
  }

  /** `map((s) => s.trim())`: every piece trimmed, in order. */
  function TrimEach(parts: seq<string>): seq<string> {
    seq(|parts|, i requires 0 <= i < |parts| => Trim(parts[i]))
  }

  /** The account names listed in `GMAIL_ACCOUNTS`: the value split on
      commas, each piece trimmed, empty pieces dropped.  Unset gives no
      names. */
  function AccountNames(raw: Option<string>): seq<string> {
    match raw
    case None => []
    case Some(s) => DropEmpty(TrimEach(Split(s, ',')))
  }

  /** A string that can appear in the parsed list: non-empty, without a
      comma, and without surrounding whitespace. */
  predicate IsListedName(s: string) {
    s != "" && ',' !in s && Trim(s) == s
  }

  /** The variable that holds an account's refresh token. */
  function RefreshTokenVar(name: string): string {
    RefreshTokenPrefix + ToUpperAscii(name)
  }

  /** An account name that passes both checks of the per-name callback. */
  predicate AccountOk(env: Env, name: string) {
    IsAccountName(name) && IsTruthy(Get(env, RefreshTokenVar(name)))
  }

  /** The per-name callback: the name must match the pattern, then its
      refresh-token variable must be set and non-empty. */
  function CheckAccount(env: Env, name: string): (r: Result<Account, ConfigError>)
    ensures r.Success? <==> AccountOk(env, name)
    ensures r.Success? ==> r.value.name == name && Get(env, RefreshTokenVar(name)) == Some(r.value.refreshToken)
    ensures r.Failure? && !IsAccountName(name) ==> r.error == InvalidAccountName(name)
    ensures r.Failure? && IsAccountName(name) ==> r.error == RefreshTokenRequired(RefreshTokenVar(name), name)
  {
    if !IsAccountName(name) then Failure(InvalidAccountName(name))
    else
      var envVar := RefreshTokenVar(name);
      var refreshToken := Get(env, envVar);
      if !IsTruthy(refreshToken) then Failure(RefreshTokenRequired(envVar, name))
      else Success(Account(name, refreshToken.value))
  }

  /** Index `i` holds the first name that fails its check. */
  predicate FirstFailure(env: Env, names: seq<string>, i: int) {
    && 0 <= i < |names|
    && !AccountOk(env, names[i])
    && forall j :: 0 <= j < i ==> AccountOk(env, names[j])
  }

  /** `accountNames.map(...)`: one account per name, in order, stopping at
      the first name that fails its check. */
  function BuildAccounts(env: Env, names: seq<string>): (r: Result<seq<Account>, ConfigError>)
    ensures r.Success? <==> forall i :: 0 <= i < |names| ==> AccountOk(env, names[i])
    ensures r.Success? ==> |r.value| == |names|
    ensures r.Success? ==> forall i :: 0 <= i < |names| ==>
      r.value[i].name == names[i] && Get(env, RefreshTokenVar(names[i])) == Some(r.value[i].refreshToken)
    ensures r.Failure? ==> exists i :: FirstFailure(env, names, i) && r.error == CheckAccount(env, names[i]).error
  {
    if names == [] then Success([])
    else
      match CheckAccount(env, names[0])
      case Failure(e) =>
        assert FirstFailure(env, names, 0);
        Failure(e)
      case Success(account) =>
        match BuildAccounts(env, names[1..])
        case Failure(e) =>
          var i :| FirstFailure(env, names[1..], i) && e == CheckAccount(env, names[1..][i]).error;
          assert FirstFailure(env, names, i + 1);
          Failure(e)
        case Success(rest) =>
          assert forall i :: 1 <= i < |names| ==> names[i] == names[1..][i - 1];
          Success([account] + rest)
  }

  /** What `parseAccounts` does with the listed names: fail when there are
      none, otherwise build one account per name. */
  function AccountsFromNames(env: Env, names: seq<string>): (r: Result<seq<Account>, ConfigError>)
    ensures r.Success? <==> |names| >= 1 && forall i :: 0 <= i < |names| ==> AccountOk(env, names[i])
    ensures r.Success? ==> |r.value| == |names| && forall i :: 0 <= i < |names| ==>
      r.value[i].name == names[i] && Get(env, RefreshTokenVar(names[i])) == Some(r.value[i].refreshToken)
    ensures r.Success? ==> |r.value| >= 1 && forall i :: 0 <= i < |r.value| ==>
      IsAccountName(r.value[i].name) && r.value[i].refreshToken != ""
    ensures r.Failure? ==> (r.error == AccountsRequired <==> names == [])
    ensures r.Failure? && names != [] ==>
      exists i :: FirstFailure(env, names, i) && r.error == CheckAccount(env, names[i]).error
  {
    if |names| == 0 then Failure(AccountsRequired) else BuildAccounts(env, names)
  }

  /** `parseAccounts()`: the accounts of the names `GMAIL_ACCOUNTS` lists. */
  function ParseAccounts(env: Env): Result<seq<Account>, ConfigError> {
    AccountsFromNames(env, AccountNames(Get(env, AccountsVar)))
  }

  /* ---------------------------------------------------------------------- */
  /* stage 2: the schema and the provider-key check                          */
  /* ---------------------------------------------------------------------- */

  /** The object `loadConfig` hands to the schema. */
  datatype RawInput = RawInput(
    clientId: Option<string>,
    clientSecret: Option<string>,
    accounts: seq<Account>,
    provider: Option<string>,
    anthropicKey: Option<string>,
    openaiKey: Option<string>,
    googleKey: Option<string>,
    gmailLabel: Option<string>,
    recipient: Option<string>)

  function ReadInput(env: Env, accounts: seq<Account>): RawInput {
    RawInput(
      Get(env, ClientIdVar), Get(env, ClientSecretVar), accounts,
      Get(env, ProviderVar),
      Get(env, AnthropicKeyVar), Get(env, OpenAIKeyVar), Get(env, GoogleKeyVar),
      Get(env, LabelVar), Get(env, RecipientVar))
  }

  /** A required string of minimum length 1: missing is one kind of
      violation, empty is another. */
  function NonEmptyIssues(field: Field, v: Option<string>): (issues: seq<Issue>)
    ensures issues == [] <==> IsTruthy(v)
    ensures |issues| <= 1
    ensures forall k :: 0 <= k < |issues| ==>
      issues[k].field == field && (issues[k].kind == Required <==> v.None?)
    ensures v == Some("") ==> issues == [Issue(field, TooSmall)]
  {
    match v
    case None => [Issue(field, Required)]
    case Some(s) => if s == "" then [Issue(field, TooSmall)] else []
  }

  /** The constraints on element `index` of the accounts array: its name
      and its refresh token each at least one character long. */
  function EntryIssues(index: nat, account: Account): (issues: seq<Issue>)
    ensures issues == [] <==> account.name != "" && account.refreshToken != ""
    ensures forall k :: 0 <= k < |issues| ==>
      issues[k].field == AccountName(index) || issues[k].field == AccountRefreshToken(index)
  {
    NonEmptyIssues(AccountName(index), Some(account.name))
    + NonEmptyIssues(AccountRefreshToken(index), Some(account.refreshToken))
  }

  /** The per-element constraints on the accounts array, from element `from`
      on, in element order. */
  function AccountIssues(accounts: seq<Account>, from: nat): (issues: seq<Issue>)
    ensures issues == [] <==>
      forall i :: from <= i < |accounts| ==> accounts[i].name != "" && accounts[i].refreshToken != ""
    decreases |accounts| - from
  {
    if from >= |accounts| then []
    else EntryIssues(from, accounts[from]) + AccountIssues(accounts, from + 1)
  }

  /** The provider enumeration with its default: unset passes, a string
      outside the enumeration is a violation. */
  function ProviderIssues(v: Option<string>): (issues: seq<Issue>)
    ensures issues == [] <==> ResolveProvider(v).Some?
  {
    if ResolveProvider(v).Some? then [] else [Issue(AiProvider, InvalidEnumValue(v.value))]
  }

  /** Every violation of the schema, in the order of its fields. */
  function SchemaIssues(input: RawInput): seq<Issue> {
    NonEmptyIssues(ClientId, input.clientId)
    + NonEmptyIssues(ClientSecret, input.clientSecret)
    + (if |input.accounts| == 0 then [Issue(Accounts, TooSmall)] else [])
    + AccountIssues(input.accounts, 0)
    + ProviderIssues(input.provider)
  }

  /** `configSchema.parse(...)`: the parsed configuration, with defaults
      filled in, or every violation found. */
  function ValidateSchema(input: RawInput): (r: Result<Config, seq<Issue>>)
    ensures r.Success? <==>
      && IsTruthy(input.clientId) && IsTruthy(input.clientSecret)
      && |input.accounts| >= 1
      && (forall i :: 0 <= i < |input.accounts| ==>
            input.accounts[i].name != "" && input.accounts[i].refreshToken != "")
      && ResolveProvider(input.provider).Some?
    ensures r.Failure? ==> |r.error| >= 1 && r.error == SchemaIssues(input)
    ensures r.Success? ==>
      && r.value.gmail == GmailConfig(input.clientId.value, input.clientSecret.value, input.accounts)
      && r.value.ai == AiConfig(ResolveProvider(input.provider).value,
                                input.anthropicKey, input.openaiKey, input.googleKey)
      && r.value.app == AppConfig(input.gmailLabel.GetOr(DefaultLabel), input.recipient.GetOr(DefaultRecipient))
  {
    var issues := SchemaIssues(input);
    if |issues| > 0 then Failure(issues)
    else
      Success(Config(
        GmailConfig(input.clientId.value, input.clientSecret.value, input.accounts),
        AiConfig(ResolveProvider(input.provider).value,
                 input.anthropicKey, input.openaiKey, input.googleKey),
        AppConfig(input.gmailLabel.GetOr(DefaultLabel), input.recipient.GetOr(DefaultRecipient))))
  }

  /** The cross-field check after the schema: the selected provider's key
      must be set and non-empty; the other keys are not looked at. */
  function CheckProviderKey(config: Config): (r: Result<Config, ConfigError>)
    ensures r.Success? <==> IsTruthy(SelectedKey(config.ai))
    ensures r.Success? ==> r.value == config
    ensures r.Failure? ==>
      r.error == ProviderKeyRequired(ProviderKeyVar(config.ai.provider), config.ai.provider)
  {
    var provider := config.ai.provider;
    if provider == Anthropic && !IsTruthy(config.ai.anthropicKey) then
      Failure(ProviderKeyRequired(AnthropicKeyVar, Anthropic))
    else if provider == OpenAI && !IsTruthy(config.ai.openaiKey) then
      Failure(ProviderKeyRequired(OpenAIKeyVar, OpenAI))
    else if provider == Google && !IsTruthy(config.ai.googleKey) then
      Failure(ProviderKeyRequired(GoogleKeyVar, Google))
    else Success(config)
  }

  /** What every configuration `LoadConfig` returns satisfies. */
  predicate ValidConfig(c: Config) {
    && c.gmail.clientId != ""
    && c.gmail.clientSecret != ""
    && |c.gmail.accounts| >= 1
    && (forall i :: 0 <= i < |c.gmail.accounts| ==>
          IsAccountName(c.gmail.accounts[i].name) && c.gmail.accounts[i].refreshToken != "")
    && IsTruthy(SelectedKey(c.ai))
  }

  /** `loadConfig()`: accounts first (they are parsed while the schema's
      input is built), then the schema, then the provider key. */
  function LoadConfig(env: Env): (r: Result<Config, ConfigError>)
    ensures r.Success? ==> ValidConfig(r.value)
  {
    match ParseAccounts(env)
    case Failure(e) => Failure(e)
    case Success(accounts) => LoadWithAccounts(env, accounts)
  }

  /** The rest of `loadConfig()` once the accounts have parsed: the schema
      over the input object, then the provider-key check. */
  function LoadWithAccounts(env: Env, accounts: seq<Account>): (r: Result<Config, ConfigError>)
    ensures r.Success? ==> r.value.gmail.accounts == accounts && IsTruthy(SelectedKey(r.value.ai))
    ensures r.Failure? ==> r.error.SchemaInvalid? || r.error.ProviderKeyRequired?
  {
    match ValidateSchema(ReadInput(env, accounts))
    case Failure(issues) => Failure(SchemaInvalid(issues))
    case Success(config) => CheckProviderKey(config)
  }

  /* ---------------------------------------------------------------------- */
  /* error messages                                                          */
  /* ---------------------------------------------------------------------- */

  const InvalidNamePrefix: string := "Invalid account name \""

  /** The text of the errors the loader raises itself (the schema's own
      message text is not modelled).  Each names what it is about. */
  function Message(e: ConfigError): (m: string)
    requires !e.SchemaInvalid?
    ensures e.InvalidAccountName? ==>
      |m| >= |InvalidNamePrefix| + |e.name| && m[|InvalidNamePrefix|..|InvalidNamePrefix| + |e.name|] == e.name
    ensures e.AccountsRequired? ==> |m| >= |AccountsVar| && m[..|AccountsVar|] == AccountsVar
    ensures e.RefreshTokenRequired? ==>
      && |m| >= |e.envVar| + |e.account| + 1
      && m[..|e.envVar|] == e.envVar
      && m[|m| - 1 - |e.account|..|m| - 1] == e.account
    ensures e.ProviderKeyRequired? ==>
      && |m| >= |e.keyVar| + |ProviderName(e.provider)|
      && m[..|e.keyVar|] == e.keyVar
      && m[|m| - |ProviderName(e.provider)|..] == ProviderName(e.provider)
  {
    match e
    case AccountsRequired =>
      AccountsVar + " required (comma-separated account names)"
    case InvalidAccountName(name) =>
      InvalidNamePrefix + name + "\": only letters, digits, and underscores allowed"
    case RefreshTokenRequired(envVar, account) =>
      envVar + " required for account \"" + account + "\""
    case ProviderKeyRequired(keyVar, provider) =>
      keyVar + " required when AI_PROVIDER=" + ProviderName(provider)
  }
}
