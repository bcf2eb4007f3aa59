/** Properties of the configuration loader: what the account list is, in
    which order the failures are reported, what a successful load contains,
    and which variables it never needs. */
module ConfigProperties {
  import opened Wrappers
  import opened Text
  import opened EnvConfig

  /* ---------------------------------------------------------------------- */
  /* the account-name list                                                   */
  /* ---------------------------------------------------------------------- */

  /** Dropping empty pieces from a list without any leaves it unchanged. */
  lemma {:induction false} DropEmptyKeeps(parts: seq<string>)
    requires forall i :: 0 <= i < |parts| ==> parts[i] != ""
    ensures DropEmpty(parts) == parts
  {
    if parts != [] {
      DropEmptyKeeps(parts[1..]);
      assert parts == [parts[0]] + parts[1..];
    }
  }

  /** The pieces kept are exactly the non-empty ones. */
  lemma {:induction false} DropEmptyMembers(parts: seq<string>, x: string)
    ensures x in DropEmpty(parts) <==> x in parts && x != ""
  {
    if parts != [] {
      DropEmptyMembers(parts[1..], x);
      assert parts == [parts[0]] + parts[1..];
    }
  }

  /** The filter works piece by piece: filtering a concatenation
      concatenates the filtered parts, so the kept pieces keep their order
      and multiplicity.  With `DropEmptySingle` this determines `DropEmpty`
      on every list. */
  lemma {:induction false} DropEmptyAppend(a: seq<string>, b: seq<string>)
    ensures DropEmpty(a + b) == DropEmpty(a) + DropEmpty(b)
  {
    if a == [] {
      assert a + b == b;
    } else {
      var ab := a + b;
      DropEmptyAppend(a[1..], b);
      assert ab[0] == a[0];
      assert ab[1..] == a[1..] + b;
      DropEmptyStep(ab);
      DropEmptyStep(a);
      ConsAssoc(a[0], DropEmpty(a[1..]), DropEmpty(b));
    }
  }

  /** One step of the filter: the first piece is kept exactly when it is
      non-empty. */
  lemma DropEmptyStep(parts: seq<string>)
    requires parts != []
    ensures DropEmpty(parts) ==
      (if parts[0] == "" then DropEmpty(parts[1..]) else [parts[0]] + DropEmpty(parts[1..]))
  {
  }

  lemma ConsAssoc(x: string, u: seq<string>, v: seq<string>)
    ensures [x] + (u + v) == ([x] + u) + v
  {
  }

  /** A single piece is kept exactly when it is non-empty. */
  lemma DropEmptySingle(x: string)
    ensures DropEmpty([x]) == (if x == "" then [] else [x])
  {
    assert [x][1..] == [];
  }

  /** A character of a joined list is the separator or a character of one
      of the pieces, and every character of every piece is in the join. */
  lemma {:induction false} JoinChars(parts: seq<string>, sep: char, c: char)
    ensures c in Join(parts, sep) ==> c == sep || exists i :: 0 <= i < |parts| && c in parts[i]
    ensures (exists i :: 0 <= i < |parts| && c in parts[i]) ==> c in Join(parts, sep)
  {
    if |parts| >= 2 {
      var tail := parts[1..];
      JoinChars(tail, sep, c);
      assert Join(parts, sep) == parts[0] + [sep] + Join(tail, sep);
      if c in Join(tail, sep) && c != sep {
        var i :| 0 <= i < |tail| && c in tail[i];
        assert c in parts[i + 1];
      }
      if exists i :: 0 <= i < |parts| && c in parts[i] {
        var i :| 0 <= i < |parts| && c in parts[i];
        if i > 0 {
          assert c in tail[i - 1];
        }
      }
    }
  }

  /** Every listed name is non-empty, contains no comma and has no
      surrounding whitespace. */
  lemma AccountNamesClean(raw: Option<string>)
    ensures forall i :: 0 <= i < |AccountNames(raw)| ==> IsListedName(AccountNames(raw)[i])
  {
    if raw.Some? {
      var pieces := Split(raw.value, ',');
      var trimmed := TrimEach(pieces);
      var names := AccountNames(raw);
      assert names == DropEmpty(trimmed);
      forall i | 0 <= i < |names|
        ensures IsListedName(names[i])
      {
        DropEmptyMembers(trimmed, names[i]);
        var j :| 0 <= j < |trimmed| && trimmed[j] == names[i];
        TrimWithin(pieces[j], ',');
        TrimIdempotent(pieces[j]);
      }
    }
  }

  /** `GMAIL_ACCOUNTS` lists no name exactly when it holds nothing but
      commas and whitespace. */
  lemma AccountNamesEmptyIff(s: string)
    ensures AccountNames(Some(s)) == [] <==>
      forall k :: 0 <= k < |s| ==> s[k] == ',' || IsTrimSpace(s[k])
  {
    if forall k :: 0 <= k < |s| ==> s[k] == ',' || IsTrimSpace(s[k]) {
      SeparatorsListNoName(s);
    } else {
      var k :| 0 <= k < |s| && s[k] != ',' && !IsTrimSpace(s[k]);
      VisibleCharListsName(s, k);
    }
  }

  lemma SeparatorsListNoName(s: string)
    requires forall k :: 0 <= k < |s| ==> s[k] == ',' || IsTrimSpace(s[k])
    ensures AccountNames(Some(s)) == []
  {
    var pieces := Split(s, ',');
    var trimmed := TrimEach(pieces);
    JoinSplit(s, ',');
    forall i | 0 <= i < |pieces| ensures trimmed[i] == "" {
      forall k | 0 <= k < |pieces[i]| ensures IsTrimSpace(pieces[i][k]) {
        JoinChars(pieces, ',', pieces[i][k]);
      }
    }
    assert AccountNames(Some(s)) == DropEmpty(trimmed);
  }

  lemma VisibleCharListsName(s: string, k: nat)
    requires k < |s| && s[k] != ',' && !IsTrimSpace(s[k])
    ensures AccountNames(Some(s)) != []
  {
    var pieces := Split(s, ',');
    var trimmed := TrimEach(pieces);
    JoinSplit(s, ',');
    JoinChars(pieces, ',', s[k]);
    var i :| 0 <= i < |pieces| && s[k] in pieces[i];
    var m :| 0 <= m < |pieces[i]| && pieces[i][m] == s[k];
    assert trimmed[i] != "";
    DropEmptyMembers(trimmed, trimmed[i]);
    assert AccountNames(Some(s)) == DropEmpty(trimmed);
  }

  /** Listing names that are non-empty, comma-free and trimmed
      comma-separated, then parsing the list, gives back the same names in
      the same order, duplicates included; with `AccountNamesClean` this
      says the parsed lists are exactly the lists of such names.  The empty
      list joins to the empty string, which lists no name. */
  lemma AccountNamesRoundTrip(names: seq<string>)
    requires forall i :: 0 <= i < |names| ==> IsListedName(names[i])
    ensures AccountNames(Some(Join(names, ','))) == names
  {
    if names == [] {
      SeparatorsListNoName(Join(names, ','));
      return;
    }
    var joined := Join(names, ',');
    assert forall i :: 0 <= i < |names| ==> ',' !in names[i];
    SplitJoin(names, ',');
    assert TrimEach(names) == names;
    DropEmptyKeeps(names);
    assert AccountNames(Some(joined)) == DropEmpty(TrimEach(Split(joined, ',')));
  }

  /** A valid account name can always be listed. */
  lemma AccountNameIsListed(s: string)
    requires IsAccountName(s)
    ensures IsListedName(s)
  {
    AccountNameIsClean(s);
  }

  /** In particular, a comma-separated list of valid account names parses
      back to those names. */
  lemma AccountNameListRoundTrip(names: seq<string>)
    requires forall i :: 0 <= i < |names| ==> IsAccountName(names[i])
    ensures AccountNames(Some(Join(names, ','))) == names
  {
    forall i | 0 <= i < |names| ensures IsListedName(names[i]) {
      AccountNameIsListed(names[i]);
    }
    AccountNamesRoundTrip(names);
  }

  /* ---------------------------------------------------------------------- */
  /* refresh-token variables                                                 */
  /* ---------------------------------------------------------------------- */

  /** Two account names share a refresh-token variable exactly when they
      differ only in the case of their letters (so `work` and `WORK` read
      the same token). */
  lemma SharedTokenVarIff(a: string, b: string)
    ensures RefreshTokenVar(a) == RefreshTokenVar(b) <==> SameIgnoringCase(a, b)
  {
    UpperEqualIff(a, b);
    if RefreshTokenVar(a) == RefreshTokenVar(b) {
      assert ToUpperAscii(a) == RefreshTokenVar(a)[|RefreshTokenPrefix|..];
    }
  }

  /** A refresh-token variable is never one of the fixed variables the
      loader reads. */
  lemma TokenVarIsNotFixedVar(name: string)
    ensures var v := RefreshTokenVar(name);
      && v != AccountsVar && v != ClientIdVar && v != ClientSecretVar
      && v != ProviderVar && v != LabelVar && v != RecipientVar
      && v != AnthropicKeyVar && v != OpenAIKeyVar && v != GoogleKeyVar
  {
    var v := RefreshTokenVar(name);
    assert v[..|RefreshTokenPrefix|] == RefreshTokenPrefix;
    assert |v| >= 20 && v[1] == 'M' && v[6] == 'R';
  }

  /** Building the accounts reads only the names' refresh-token variables. */
  lemma {:induction false} BuildAccountsReadsTokensOnly(env: Env, env': Env, names: seq<string>)
    requires forall i :: 0 <= i < |names| ==>
      Get(env, RefreshTokenVar(names[i])) == Get(env', RefreshTokenVar(names[i]))
    ensures BuildAccounts(env, names) == BuildAccounts(env', names)
  {
    if names != [] {
      BuildAccountsReadsTokensOnly(env, env', names[1..]);
    }
  }

  /* ---------------------------------------------------------------------- */
  /* loading                                                                 */
  /* ---------------------------------------------------------------------- */

  /** At least one account, and no account with an empty name or token:
      what the schema demands of the accounts array. */
  predicate WellFormedAccounts(accounts: seq<Account>) {
    |accounts| >= 1 && forall i :: 0 <= i < |accounts| ==>
      accounts[i].name != "" && accounts[i].refreshToken != ""
  }

  /** Every list of accounts `ParseAccounts` returns is well formed. */
  lemma ParsedAccountsAreWellFormed(env: Env)
    requires ParseAccounts(env).Success?
    ensures WellFormedAccounts(ParseAccounts(env).value)
  {
    var accounts := ParseAccounts(env).value;
    forall i | 0 <= i < |accounts|
      ensures accounts[i].name != "" && accounts[i].refreshToken != ""
    {
      assert IsAccountName(accounts[i].name);
    }
  }

  /** With well-formed accounts, the account constraints contribute no
      violation: the only ones left are the client credentials and the
      provider. */
  lemma SchemaIssuesOfWellFormedAccounts(input: RawInput)
    requires WellFormedAccounts(input.accounts)
    ensures SchemaIssues(input) ==
      NonEmptyIssues(ClientId, input.clientId)
      + NonEmptyIssues(ClientSecret, input.clientSecret)
      + ProviderIssues(input.provider)
  {
    var a := NonEmptyIssues(ClientId, input.clientId);
    var b := NonEmptyIssues(ClientSecret, input.clientSecret);
    var c := ProviderIssues(input.provider);
    assert AccountIssues(input.accounts, 0) == [];
    assert SchemaIssues(input) == a + b + [] + [] + c;
    assert a + b + [] + [] + c == a + b + c;
  }

  /** After well-formed accounts, loading succeeds exactly when both client
      credentials are set and non-empty, `AI_PROVIDER` is unset or names a
      provider, and that provider's key is set and non-empty. */
  lemma StagesSucceedIff(env: Env, accounts: seq<Account>)
    requires WellFormedAccounts(accounts)
    ensures var provider := ResolveProvider(Get(env, ProviderVar));
      LoadWithAccounts(env, accounts).Success? <==>
        && IsTruthy(Get(env, ClientIdVar))
        && IsTruthy(Get(env, ClientSecretVar))
        && provider.Some?
        && IsTruthy(Get(env, ProviderKeyVar(provider.value)))
  {
    var provider := ResolveProvider(Get(env, ProviderVar));
    if provider.Some? {
      var ai := AiConfig(provider.value, Get(env, AnthropicKeyVar), Get(env, OpenAIKeyVar), Get(env, GoogleKeyVar));
      assert SelectedKey(ai) == Get(env, ProviderKeyVar(provider.value));
    }
  }

  /** After well-formed accounts, a schema violation is reported with every
      violation found, before the provider key is looked at. */
  lemma SchemaStageError(env: Env, accounts: seq<Account>)
    requires WellFormedAccounts(accounts)
    requires !IsTruthy(Get(env, ClientIdVar)) || !IsTruthy(Get(env, ClientSecretVar))
             || ResolveProvider(Get(env, ProviderVar)).None?
    ensures LoadWithAccounts(env, accounts) == Failure(SchemaInvalid(
      NonEmptyIssues(ClientId, Get(env, ClientIdVar))
      + NonEmptyIssues(ClientSecret, Get(env, ClientSecretVar))
      + ProviderIssues(Get(env, ProviderVar))))
  {
    SchemaIssuesOfWellFormedAccounts(ReadInput(env, accounts));
  }

  /** After well-formed accounts, the provider-key error is reported exactly
      when the schema passes and the selected key is unset or empty. */
  lemma KeyStageError(env: Env, accounts: seq<Account>)
    requires WellFormedAccounts(accounts)
    ensures var provider := ResolveProvider(Get(env, ProviderVar));
      var r := LoadWithAccounts(env, accounts);
      r.Failure? && r.error.ProviderKeyRequired? <==>
        && IsTruthy(Get(env, ClientIdVar)) && IsTruthy(Get(env, ClientSecretVar))
        && provider.Some?
        && !IsTruthy(Get(env, ProviderKeyVar(provider.value)))
    ensures var provider := ResolveProvider(Get(env, ProviderVar));
      var r := LoadWithAccounts(env, accounts);
      r.Failure? && r.error.ProviderKeyRequired? ==>
        r.error == ProviderKeyRequired(ProviderKeyVar(provider.value), provider.value)
  {
    StagesSucceedIff(env, accounts);
    SchemaIssuesOfWellFormedAccounts(ReadInput(env, accounts));
  }

  /** Loading succeeds exactly when the accounts parse, both client
      credentials are set and non-empty, `AI_PROVIDER` is unset or names a
      provider, and that provider's key is set and non-empty. */
  lemma LoadConfigSucceedsIff(env: Env)
    ensures var names := AccountNames(Get(env, AccountsVar));
      var provider := ResolveProvider(Get(env, ProviderVar));
      LoadConfig(env).Success? <==>
        && |names| >= 1
        && (forall i :: 0 <= i < |names| ==> AccountOk(env, names[i]))
        && IsTruthy(Get(env, ClientIdVar))
        && IsTruthy(Get(env, ClientSecretVar))
        && provider.Some?
        && IsTruthy(Get(env, ProviderKeyVar(provider.value)))
  {
    if ParseAccounts(env).Success? {
      ParsedAccountsAreWellFormed(env);
      StagesSucceedIff(env, ParseAccounts(env).value);
    }
  }

  /** After the accounts, the configuration holds the client credentials,
      the provider (`anthropic` when `AI_PROVIDER` is unset), the three keys
      as found, and the label and recipient, which take their defaults only
      when unset. */
  lemma StagesValue(env: Env, accounts: seq<Account>)
    requires LoadWithAccounts(env, accounts).Success?
    ensures var c := LoadWithAccounts(env, accounts).value;
      && c.gmail == GmailConfig(env[ClientIdVar], env[ClientSecretVar], accounts)
      && Some(c.ai.provider) == ResolveProvider(Get(env, ProviderVar))
      && (ProviderVar !in env ==> c.ai.provider == Anthropic)
      && c.ai.anthropicKey == Get(env, AnthropicKeyVar)
      && c.ai.openaiKey == Get(env, OpenAIKeyVar)
      && c.ai.googleKey == Get(env, GoogleKeyVar)
      && c.app.gmailLabel == (if LabelVar in env then env[LabelVar] else DefaultLabel)
      && c.app.recipient == (if RecipientVar in env then env[RecipientVar] else DefaultRecipient)
  {
  }

  /** A loaded configuration holds the parsed accounts and everything
      `StagesValue` lists. */
  lemma LoadConfigValue(env: Env)
    requires LoadConfig(env).Success?
    ensures var c := LoadConfig(env).value;
      && c.gmail == GmailConfig(env[ClientIdVar], env[ClientSecretVar], ParseAccounts(env).value)
      && Some(c.ai.provider) == ResolveProvider(Get(env, ProviderVar))
      && (ProviderVar !in env ==> c.ai.provider == Anthropic)
      && c.ai.anthropicKey == Get(env, AnthropicKeyVar)
      && c.ai.openaiKey == Get(env, OpenAIKeyVar)
      && c.ai.googleKey == Get(env, GoogleKeyVar)
      && c.app.gmailLabel == (if LabelVar in env then env[LabelVar] else DefaultLabel)
      && c.app.recipient == (if RecipientVar in env then env[RecipientVar] else DefaultRecipient)
  {
    StagesValue(env, ParseAccounts(env).value);
  }

  /** An account error is reported whatever else is wrong: it wins over
      missing client credentials, a bad provider and a missing key. */
  lemma AccountErrorsComeFirst(env: Env)
    requires ParseAccounts(env).Failure?
    ensures LoadConfig(env) == Failure(ParseAccounts(env).error)
  {
  }

  /** The "GMAIL_ACCOUNTS required" error is reported exactly when the
      variable lists no name: it is unset, or holds only commas and
      whitespace (see `AccountNamesEmptyIff`). */
  lemma AccountsRequiredIff(env: Env)
    ensures LoadConfig(env) == Failure(AccountsRequired) <==>
      AccountNames(Get(env, AccountsVar)) == []
  {
    if ParseAccounts(env).Failure? {
      AccountErrorsComeFirst(env);
    }
  }

  /** After the accounts, a schema violation is reported with every
      violation found, before the provider key is looked at. */
  lemma SchemaErrorsComeSecond(env: Env)
    requires ParseAccounts(env).Success?
    requires !IsTruthy(Get(env, ClientIdVar)) || !IsTruthy(Get(env, ClientSecretVar))
             || ResolveProvider(Get(env, ProviderVar)).None?
    ensures LoadConfig(env) == Failure(SchemaInvalid(
      NonEmptyIssues(ClientId, Get(env, ClientIdVar))
      + NonEmptyIssues(ClientSecret, Get(env, ClientSecretVar))
      + ProviderIssues(Get(env, ProviderVar))))
  {
    ParsedAccountsAreWellFormed(env);
    SchemaStageError(env, ParseAccounts(env).value);
  }

  /** The provider-key error is reported exactly when everything else has
      passed and the selected provider's key is unset or empty; it names
      that key's variable and the provider. */
  lemma ProviderKeyErrorComesLast(env: Env)
    ensures var provider := ResolveProvider(Get(env, ProviderVar));
      LoadConfig(env).Failure? && LoadConfig(env).error.ProviderKeyRequired? <==>
        && ParseAccounts(env).Success?
        && IsTruthy(Get(env, ClientIdVar)) && IsTruthy(Get(env, ClientSecretVar))
        && provider.Some?
        && !IsTruthy(Get(env, ProviderKeyVar(provider.value)))
    ensures var provider := ResolveProvider(Get(env, ProviderVar));
      LoadConfig(env).Failure? && LoadConfig(env).error.ProviderKeyRequired? ==>
        LoadConfig(env).error == ProviderKeyRequired(ProviderKeyVar(provider.value), provider.value)
  {
    if ParseAccounts(env).Success? {
      ParsedAccountsAreWellFormed(env);
      KeyStageError(env, ParseAccounts(env).value);
    } else {
      AccountErrorsComeFirst(env);
    }
  }

  /** Parsing the accounts reads none of the API-key variables. */
  lemma AccountsIgnoreKeyVars(env: Env, env': Env, key: string)
    requires key == AnthropicKeyVar || key == OpenAIKeyVar || key == GoogleKeyVar
    requires forall v :: v != key ==> Get(env', v) == Get(env, v)
    ensures ParseAccounts(env') == ParseAccounts(env)
  {
    assert Get(env', AccountsVar) == Get(env, AccountsVar);
    var names := AccountNames(Get(env, AccountsVar));
    forall i | 0 <= i < |names|
      ensures Get(env, RefreshTokenVar(names[i])) == Get(env', RefreshTokenVar(names[i]))
    {
      TokenVarIsNotFixedVar(names[i]);
    }
    BuildAccountsReadsTokensOnly(env, env', names);
    assert ParseAccounts(env') == ParseAccounts(env);
  }

  /** The keys of the providers that were not selected are never required:
      setting, changing or removing one does not change whether loading
      succeeds, nor the error it reports. */
  lemma UnselectedKeysIgnored(env: Env, env': Env, key: string)
    requires ResolveProvider(Get(env, ProviderVar)).Some?
    requires key == AnthropicKeyVar || key == OpenAIKeyVar || key == GoogleKeyVar
    requires key != ProviderKeyVar(ResolveProvider(Get(env, ProviderVar)).value)
    requires forall v :: v != key ==> Get(env', v) == Get(env, v)
    ensures LoadConfig(env').Success? <==> LoadConfig(env).Success?
    ensures LoadConfig(env).Failure? ==> LoadConfig(env') == LoadConfig(env)
  {
    AccountsIgnoreKeyVars(env, env', key);
    if ParseAccounts(env).Success? {
      ParsedAccountsAreWellFormed(env);
      StagesIgnoreUnselectedKey(env, env', key, ParseAccounts(env).value);
    }
  }

  /** The same, for the stages after the accounts. */
  lemma StagesIgnoreUnselectedKey(env: Env, env': Env, key: string, accounts: seq<Account>)
    requires WellFormedAccounts(accounts)
    requires ResolveProvider(Get(env, ProviderVar)).Some?
    requires key != ProviderKeyVar(ResolveProvider(Get(env, ProviderVar)).value)
    requires key != ProviderVar && key != ClientIdVar && key != ClientSecretVar
    requires forall v :: v != key ==> Get(env', v) == Get(env, v)
    ensures LoadWithAccounts(env', accounts).Success? <==> LoadWithAccounts(env, accounts).Success?
    ensures LoadWithAccounts(env, accounts).Failure? ==>
      LoadWithAccounts(env', accounts) == LoadWithAccounts(env, accounts)
  {
    var p := ResolveProvider(Get(env, ProviderVar)).value;
    assert Get(env', ProviderVar) == Get(env, ProviderVar);
    assert Get(env', ClientIdVar) == Get(env, ClientIdVar);
    assert Get(env', ClientSecretVar) == Get(env, ClientSecretVar);
    if !IsTruthy(Get(env, ClientIdVar)) || !IsTruthy(Get(env, ClientSecretVar)) {
      SchemaStageError(env, accounts);
      SchemaStageError(env', accounts);
    } else {
      assert Get(env', ProviderKeyVar(p)) == Get(env, ProviderKeyVar(p));
      KeyStageError(env, accounts);
      KeyStageError(env', accounts);
      StagesSucceedIff(env, accounts);
      StagesSucceedIff(env', accounts);
    }
  }
}
