/** Usage scenarios of the loader, each stated for every environment
    that has the variables it mentions. */
module ConfigExamples {
  import opened Wrappers
  import opened Text
  import opened EnvConfig
  import opened ConfigProperties

  /** `GMAIL_ACCOUNTS="a,b"` parses to the names `a` and `b`, in that order,
      when each is non-empty, comma-free and trimmed. */
  lemma TwoNames(env: Env, a: string, b: string)
    requires IsListedName(a)
    requires IsListedName(b)
    requires Get(env, AccountsVar) == Some(a + "," + b)
    ensures AccountNames(Get(env, AccountsVar)) == [a, b]
  {
    assert Join([a, b], ',') == a + "," + b;
    AccountNamesRoundTrip([a, b]);
  }

  /** Two listed accounts with their tokens set are both loaded, in the
      listed order, each with its own token. */
  lemma TwoAccountsInListedOrder(env: Env, a: string, b: string, ta: string, tb: string)
    requires IsAccountName(a) && IsAccountName(b)
    requires Get(env, AccountsVar) == Some(a + "," + b)
    requires ta != "" && Get(env, RefreshTokenVar(a)) == Some(ta)
    requires tb != "" && Get(env, RefreshTokenVar(b)) == Some(tb)
    ensures ParseAccounts(env) == Success([Account(a, ta), Account(b, tb)])
  {
    AccountNameIsListed(a);
    AccountNameIsListed(b);
    TwoNames(env, a, b);
    TwoAccountsBuilt(env, a, b, ta, tb);
  }

  lemma TwoAccountsBuilt(env: Env, a: string, b: string, ta: string, tb: string)
    requires IsAccountName(a) && IsAccountName(b)
    requires ta != "" && Get(env, RefreshTokenVar(a)) == Some(ta)
    requires tb != "" && Get(env, RefreshTokenVar(b)) == Some(tb)
    ensures AccountsFromNames(env, [a, b]) == Success([Account(a, ta), Account(b, tb)])
  {
    var names := [a, b];
    assert AccountOk(env, names[0]) && AccountOk(env, names[1]);
    var r := AccountsFromNames(env, names);
    assert r.Success? && |r.value| == 2;
    assert r.value == [r.value[0], r.value[1]];
  }

  /** A name listed twice is not rejected: it gives two identical accounts. */
  lemma DuplicateNameAccepted(env: Env, a: string, t: string)
    requires IsAccountName(a)
    requires Get(env, AccountsVar) == Some(a + "," + a)
    requires t != "" && Get(env, RefreshTokenVar(a)) == Some(t)
    ensures ParseAccounts(env) == Success([Account(a, t), Account(a, t)])
  {
    TwoAccountsInListedOrder(env, a, a, t, t);
  }

  /** Errors follow the list order: when the first of two listed accounts
      has no token, that is reported, whatever the second name is. */
  lemma FirstOfTwoFails(env: Env, a: string, b: string)
    requires IsAccountName(a) && !IsTruthy(Get(env, RefreshTokenVar(a)))
    requires AccountNames(Get(env, AccountsVar)) == [a, b]
    ensures LoadConfig(env) == Failure(RefreshTokenRequired(RefreshTokenVar(a), a))
  {
    var names := [a, b];
    assert !AccountOk(env, names[0]);
    var r := ParseAccounts(env);
    assert r.Failure?;
    var i :| FirstFailure(env, names, i) && r.error == CheckAccount(env, names[i]).error;
    assert i == 0;
    AccountErrorsComeFirst(env);
  }

  /** In particular, a missing token of the first account is reported even
      though the second name is invalid. */
  lemma FirstListedFailureReported(env: Env, a: string, b: string)
    requires IsAccountName(a) && !IsTruthy(Get(env, RefreshTokenVar(a)))
    requires IsListedName(b) && !IsAccountName(b)
    requires Get(env, AccountsVar) == Some(a + "," + b)
    ensures LoadConfig(env) == Failure(RefreshTokenRequired(RefreshTokenVar(a), a))
  {
    AccountNameIsListed(a);
    TwoNames(env, a, b);
    FirstOfTwoFails(env, a, b);
  }

  /** With `AI_PROVIDER` unset and `ANTHROPIC_API_KEY` set, loading
      succeeds with the `anthropic` provider. */
  lemma DefaultProviderIsAnthropic(env: Env)
    requires ParseAccounts(env).Success?
    requires IsTruthy(Get(env, ClientIdVar)) && IsTruthy(Get(env, ClientSecretVar))
    requires ProviderVar !in env
    requires IsTruthy(Get(env, AnthropicKeyVar))
    ensures LoadConfig(env).Success? && LoadConfig(env).value.ai.provider == Anthropic
  {
    LoadConfigSucceedsIff(env);
    LoadConfigValue(env);
  }

  /** `AI_PROVIDER=openai` without `OPENAI_API_KEY`: the load fails naming
      the key's variable and the provider. */
  lemma OpenAIKeyMissing(env: Env)
    requires ParseAccounts(env).Success?
    requires IsTruthy(Get(env, ClientIdVar)) && IsTruthy(Get(env, ClientSecretVar))
    requires Get(env, ProviderVar) == Some("openai")
    requires OpenAIKeyVar !in env
    ensures LoadConfig(env) == Failure(ProviderKeyRequired("OPENAI_API_KEY", OpenAI))
  {
    OpenAISelected();
    assert !IsTruthy(Get(env, OpenAIKeyVar));
    ProviderKeyErrorComesLast(env);
  }

  /** `openai` selects the OpenAI provider, whose key is `OPENAI_API_KEY`. */
  lemma OpenAISelected()
    ensures ResolveProvider(Some("openai")) == Some(OpenAI)
    ensures ProviderKeyVar(OpenAI) == OpenAIKeyVar == "OPENAI_API_KEY"
  {
  }

  /** An empty `AI_PROVIDER` is not treated as unset: it lies outside the
      enumeration, and the schema rejects it. */
  lemma EmptyProviderRejected(env: Env)
    requires ParseAccounts(env).Success?
    requires IsTruthy(Get(env, ClientIdVar)) && IsTruthy(Get(env, ClientSecretVar))
    requires Get(env, ProviderVar) == Some("")
    ensures LoadConfig(env) == Failure(SchemaInvalid([Issue(AiProvider, InvalidEnumValue(""))]))
  {
    EmptyProviderIssue();
    SchemaErrorsComeSecond(env);
    OnlyProviderIssue(Get(env, ClientIdVar), Get(env, ClientSecretVar), Get(env, ProviderVar));
  }

  /** The empty string is outside the provider enumeration. */
  lemma EmptyProviderIssue()
    ensures ResolveProvider(Some("")).None?
    ensures ProviderIssues(Some("")) == [Issue(AiProvider, InvalidEnumValue(""))]
  {
    assert ParseProvider("") == None;
  }

  /** With both client credentials present, the provider's violations are
      the only ones. */
  lemma OnlyProviderIssue(clientId: Option<string>, clientSecret: Option<string>, provider: Option<string>)
    requires IsTruthy(clientId) && IsTruthy(clientSecret)
    ensures NonEmptyIssues(ClientId, clientId) + NonEmptyIssues(ClientSecret, clientSecret)
      + ProviderIssues(provider) == ProviderIssues(provider)
  {
    assert NonEmptyIssues(ClientId, clientId) == [];
    assert NonEmptyIssues(ClientSecret, clientSecret) == [];
  }
}
