# Configuration loader of the newsletter digest

A Dafny model of the environment-configuration loader in `src/config.ts`.
The loader turns the process environment into a validated configuration for
the newsletter-digest tool, or fails with a descriptive error. The model
treats it as a pure function from an environment `map<string, string>` to a
`Result<Config, ConfigError>`. Each `throw` of the source becomes a
`Failure`.

Loading runs in two stages, in this order:

1. **Accounts** (`parseAccounts`). `GMAIL_ACCOUNTS` is split on commas, each
   piece is trimmed and empty pieces are dropped. If no name is left, loading
   fails with "GMAIL_ACCOUNTS required". Each name must then match
   `^[A-Za-z0-9_]+$`. Each account's refresh token is read from
   `GMAIL_REFRESH_TOKEN_<NAME>`, where `<NAME>` is the name in ASCII upper
   case, and must be non-empty. The first name that fails stops the load.
2. **Schema and provider key** (`loadConfig`). The object built from the
   environment is checked against the schema:
   - the client id and secret must be non-empty;
   - `AI_PROVIDER` must be `anthropic`, `openai` or `google`, and defaults to
     `anthropic` only when unset;
   - `GMAIL_LABEL` and `DIGEST_RECIPIENT` default to `Newsletters` and `me`
     only when unset.

   A schema failure carries every violation found, in field order. After the
   schema passes, the API key of the selected provider must be non-empty.

Files:

- `wrappers.dfy` defines `Option` and `Result`.
- `text.dfy` models the JavaScript string operations the loader uses:
  - `split` with a one-character separator, and its inverse `Join`;
  - `trim`, with the ECMAScript whitespace and line-terminator set;
  - `toUpperCase` on ASCII;
  - the account-name pattern.
- `env_config.dfy` holds the data model, both stages and the error texts.
  The source's `app.label` field is `gmailLabel` here, because `label` is a
  reserved word in Dafny.
- `config_properties.dfy` holds the properties:
  - the account list round-trip;
  - token-variable naming;
  - the order of failures;
  - what a successful load contains;
  - that unselected provider keys are never needed.
- `config_examples.dfy` holds usage scenarios of the loader, each stated for
  every environment that has the variables it mentions.

## Model

| member | source | states |
|---|---|---|
| Text.Split | src/config.ts:37 | `split` always yields at least one piece, and no piece contains the separator |
| Text.JoinSplit | src/config.ts:37 | joining the pieces of a split with the separator gives back the original string |
| Text.SplitJoin | src/config.ts:37 | splitting the join of one or more separator-free pieces gives back exactly those pieces |
| Text.SplitPrefix | src/config.ts:37 | a separator-free prefix is glued to the first piece of the rest of the string |
| Text.TrimStart | src/config.ts:38 | the result is a suffix of the input; everything dropped is trim-space; it does not start with trim-space |
| Text.TrimEnd | src/config.ts:38 | the result is a prefix of the input; everything dropped is trim-space; it does not end with trim-space |
| Text.Trim | src/config.ts:38 | `trim` yields a string no longer than its input, with no trim-space at either end; it is empty exactly when the input is all trim-space |
| Text.TrimIsSlice | src/config.ts:38 | the result of `trim` is one contiguous stretch of the input with only trim-space before and after it; with `Trim`'s ends this fixes the result |
| Text.TrimWithin | src/config.ts:38 | every character of a trimmed string occurs in the original |
| Text.TrimFixed | src/config.ts:38 | `trim` leaves a string unchanged exactly when the string neither starts nor ends with trim-space |
| Text.TrimIdempotent | src/config.ts:38 | trimming twice equals trimming once |
| Text.ToUpperAscii | src/config.ts:52 | definition, no contract of its own: `toUpperCase` on ASCII, each lower-case letter mapped to its upper-case partner and every other character kept, same length; characterised by `UpperEqualIff` and, through the token variable, by `SharedTokenVarIff` |
| Text.UpperEqualIff | src/config.ts:52 | two strings have the same ASCII upper case exactly when they differ only in the case of letters |
| Text.IsAccountName | src/config.ts:34 | definition, no contract of its own: `ACCOUNT_NAME_REGEX.test(name)` as line 46 applies it, at least one character and every character in `[A-Za-z0-9_]`, anchored at both ends of the whole string; characterised by `NameCharIsPlain`, `AccountNameIsClean` and `AccountNameIsListed`, and decides `CheckAccount` |
| Text.NameCharIsPlain | src/config.ts:34 | no character of `[A-Za-z0-9_]` is whitespace or a comma |
| Text.AccountNameIsClean | src/config.ts:34 | a string matching the name pattern is left alone by `trim` and contains no comma |
| EnvConfig.ParseProvider | src/config.ts:18 | exactly `anthropic`, `openai` and `google` are accepted, each as the provider it names; every other string, the empty string included, is rejected |
| EnvConfig.ResolveProvider | src/config.ts:18 | definition, no contract of its own: unset gives the default `anthropic`, a set value goes through `ParseProvider`, so the empty string resolves to nothing; characterised by `ParseProvider`, `ProviderIssues`, `LoadConfigValue`, `DefaultProviderIsAnthropic` and `EmptyProviderRejected` |
| EnvConfig.DropEmpty | src/config.ts:39 | the filter keeps only non-empty pieces, never adds any, and yields nothing exactly when every piece is empty |
| EnvConfig.TrimEach | src/config.ts:38 | definition, no contract of its own: `map((s) => s.trim())`, one trimmed piece per piece, in order; the pieces are characterised by the `Trim` lemmas, and the list by `AccountNamesClean` and `AccountNamesRoundTrip` |
| EnvConfig.AccountNames | src/config.ts:37-39 | definition, no contract of its own: unset gives no names, otherwise `DropEmpty` over `TrimEach` over `Split` on commas; characterised by `AccountNamesClean`, `AccountNamesEmptyIff`, `AccountNamesRoundTrip`, `AccountNameListRoundTrip` and `TwoNames` |
| EnvConfig.RefreshTokenVar | src/config.ts:52 | definition, no contract of its own: `GMAIL_REFRESH_TOKEN_` followed by the name in ASCII upper case; characterised by `SharedTokenVarIff` and `TokenVarIsNotFixedVar` |
| EnvConfig.CheckAccount | src/config.ts:46-57 | a name passes exactly when it matches the pattern and its token variable is non-empty; the account keeps the name and that variable's value; an invalid name is reported before a missing token, with the variable and the account named |
| EnvConfig.BuildAccounts | src/config.ts:45-60 | the accounts are built exactly when every name passes, one per name in list order, each with its own token; otherwise the error is that of the first failing name |
| EnvConfig.AccountsFromNames | src/config.ts:41-60 | an empty name list fails with "GMAIL_ACCOUNTS required" and only it does; on success every account has a valid name and a non-empty token, in list order; otherwise the first failing name's error |
| EnvConfig.ParseAccounts | src/config.ts:36-61 | definition, no contract of its own: `AccountsFromNames` over `AccountNames` of `GMAIL_ACCOUNTS`; characterised by `AccountsRequiredIff`, `LoadConfigSucceedsIff`, `ParsedAccountsAreWellFormed`, `AccountsIgnoreKeyVars`, `AccountErrorsComeFirst` and `TwoAccountsInListedOrder` |
| EnvConfig.NonEmptyIssues | src/config.ts:11-12 | a required string gives no violation exactly when it is set and non-empty; otherwise one violation about that field, `Required` when unset and `TooSmall` when empty |
| EnvConfig.EntryIssues | src/config.ts:3-6 | an account element gives no violation exactly when its name and token are non-empty; each violation is about that element |
| EnvConfig.AccountIssues | src/config.ts:3-6 | the accounts array gives no element violation exactly when every name and token is non-empty |
| EnvConfig.ProviderIssues | src/config.ts:18 | the provider gives no violation exactly when it is unset or names a provider |
| EnvConfig.SchemaIssues | src/config.ts:8-29 | definition, no contract of its own: the violations in field order, client id, client secret, the one-account minimum, each account element, then the provider; characterised by `ValidateSchema` (empty exactly when the schema passes), `SchemaIssuesOfWellFormedAccounts` and `SchemaStageError` |
| EnvConfig.ReadInput | src/config.ts:64-80 | definition, no contract of its own: the object handed to the schema, each field read from its environment variable and the accounts from the first stage; characterised by `StagesValue`, `LoadConfigValue` and `UnselectedKeysIgnored` |
| EnvConfig.ValidateSchema | src/config.ts:8-29 | the schema passes exactly when both credentials are non-empty, there is at least one account, all names and tokens are non-empty and the provider resolves; on failure it reports every violation; on success the provider default and the label and recipient defaults apply only to unset values |
| EnvConfig.CheckProviderKey | src/config.ts:83-94 | the check passes exactly when the selected provider's key is non-empty and then returns the configuration unchanged; otherwise it names that key's variable and the provider |
| EnvConfig.LoadConfig | src/config.ts:63-97 | every loaded configuration has non-empty credentials, at least one valid account with a non-empty token, and a non-empty key for its provider |
| EnvConfig.LoadWithAccounts | src/config.ts:64-96 | after the accounts, a success keeps the parsed accounts and has a non-empty selected key; a failure is a schema or provider-key error |
| EnvConfig.Message | src/config.ts:42-93 | each error text names what it is about: `GMAIL_ACCOUNTS`, the offending account name, the token variable and its account, or the key variable and the provider |
| ConfigProperties.DropEmptyAppend | src/config.ts:39 | filtering a concatenation concatenates the filtered parts, so kept pieces keep their order and count |
| ConfigProperties.DropEmptySingle | src/config.ts:39 | a single piece is kept exactly when it is non-empty; with `DropEmptyAppend` this determines the filter on every list |
| ConfigProperties.DropEmptyStep | src/config.ts:39 | the filter keeps the first piece exactly when it is non-empty, then filters the rest |
| ConfigProperties.DropEmptyKeeps | src/config.ts:39 | the filter leaves a list without empty pieces unchanged |
| ConfigProperties.DropEmptyMembers | src/config.ts:39 | the filter keeps exactly the non-empty pieces |
| ConfigProperties.AccountNamesClean | src/config.ts:37-39 | every parsed name is non-empty, has no comma and has no surrounding whitespace |
| ConfigProperties.AccountNamesEmptyIff | src/config.ts:37-41 | a set `GMAIL_ACCOUNTS` lists no name exactly when it holds only commas and whitespace |
| ConfigProperties.SeparatorsListNoName | src/config.ts:37-41 | a value of only commas and whitespace lists no name |
| ConfigProperties.VisibleCharListsName | src/config.ts:37-41 | a value with any other character lists at least one name |
| ConfigProperties.AccountNamesRoundTrip | src/config.ts:37-39 | listing clean names comma-separated and parsing gives back the same names in the same order, duplicates included |
| ConfigProperties.AccountNameIsListed | src/config.ts:34-39 | every name matching the pattern can appear in the parsed list |
| ConfigProperties.AccountNameListRoundTrip | src/config.ts:34-39 | a comma-separated list of valid names parses back to those names |
| ConfigProperties.SharedTokenVarIff | src/config.ts:52 | two names read the same token variable exactly when they differ only in letter case |
| ConfigProperties.TokenVarIsNotFixedVar | src/config.ts:52-53 | a token variable is never one of the fixed variables the loader reads |
| ConfigProperties.BuildAccountsReadsTokensOnly | src/config.ts:45-60 | building the accounts depends only on the names' token variables |
| ConfigProperties.ParsedAccountsAreWellFormed | src/config.ts:13 | parsed accounts always meet the schema's account constraints, so "at least one account" can never fail after `parseAccounts` |
| ConfigProperties.SchemaIssuesOfWellFormedAccounts | src/config.ts:3-13 | with well-formed accounts the only violations left are the credentials and the provider, in that order |
| ConfigProperties.StagesSucceedIff | src/config.ts:64-96 | after well-formed accounts, loading succeeds exactly when both credentials are non-empty, the provider resolves and its key is non-empty |
| ConfigProperties.SchemaStageError | src/config.ts:64-80 | after well-formed accounts, a missing credential or a bad provider fails with the violation list, before the key check |
| ConfigProperties.KeyStageError | src/config.ts:83-94 | after well-formed accounts, the provider-key error occurs exactly when the schema passes and the selected key is unset or empty, and it names that key and provider |
| ConfigProperties.LoadConfigSucceedsIff | src/config.ts:63-97 | loading succeeds exactly when the names are non-empty and all pass, both credentials are non-empty, the provider resolves and its key is non-empty |
| ConfigProperties.StagesValue | src/config.ts:64-80 | the loaded configuration has the credentials, the resolved provider, the three keys as found, and label and recipient defaulted only when unset |
| ConfigProperties.LoadConfigValue | src/config.ts:17-28 | the same for a full load, with the parsed accounts; an unset `AI_PROVIDER` gives `anthropic` |
| ConfigProperties.AccountErrorsComeFirst | src/config.ts:64-68 | an account error is the load's error, whatever else is wrong |
| ConfigProperties.AccountsRequiredIff | src/config.ts:37-43 | loading fails with "GMAIL_ACCOUNTS required" exactly when the variable lists no name |
| ConfigProperties.SchemaErrorsComeSecond | src/config.ts:64-80 | after the accounts parse, a missing credential or a bad provider fails with exactly the credential and provider violations |
| ConfigProperties.ProviderKeyErrorComesLast | src/config.ts:83-94 | the provider-key error occurs exactly when the accounts and schema passed and the selected key is unset or empty; it names that key and provider |
| ConfigProperties.AccountsIgnoreKeyVars | src/config.ts:36-61 | account parsing does not read any API-key variable |
| ConfigProperties.UnselectedKeysIgnored | src/config.ts:84-94 | changing the key of a provider that was not selected changes neither whether loading succeeds nor its error |
| ConfigProperties.StagesIgnoreUnselectedKey | src/config.ts:84-94 | the same for the stages after the accounts |
| ConfigExamples.TwoNames | src/config.ts:37-39 | `a,b` with clean names parses to `[a, b]` |
| ConfigExamples.TwoAccountsBuilt | src/config.ts:45-60 | two valid names with tokens give their two accounts, in order |
| ConfigExamples.TwoAccountsInListedOrder | src/config.ts:36-60 | `GMAIL_ACCOUNTS=a,b` with both tokens set loads both accounts in the listed order |
| ConfigExamples.DuplicateNameAccepted | src/config.ts:45-60 | a name listed twice gives two identical accounts |
| ConfigExamples.FirstOfTwoFails | src/config.ts:45-57 | a missing token of the first name is the error, whatever the second name is |
| ConfigExamples.FirstListedFailureReported | src/config.ts:45-57 | a missing token of the first name is reported even when the second name is invalid |
| ConfigExamples.DefaultProviderIsAnthropic | src/config.ts:18 | with `AI_PROVIDER` unset and the Anthropic key set, loading succeeds with `anthropic` |
| ConfigExamples.OpenAISelected | src/config.ts:87 | `openai` selects the OpenAI provider, whose key variable is `OPENAI_API_KEY` |
| ConfigExamples.OpenAIKeyMissing | src/config.ts:87-89 | `AI_PROVIDER=openai` without `OPENAI_API_KEY` fails naming that variable and the provider |
| ConfigExamples.EmptyProviderIssue | src/config.ts:18 | the empty string is outside the provider enumeration |
| ConfigExamples.OnlyProviderIssue | src/config.ts:11-12 | with both credentials present, the provider's violations are the only ones |
| ConfigExamples.EmptyProviderRejected | src/config.ts:18 | an empty `AI_PROVIDER` is not treated as unset: the schema rejects it |

## Left out

- `scripts/auth.ts` is not part of this model. It is I/O only: argument parsing, a browser launch, an HTTP callback listener, the OAuth token exchange through the Google client library, and `process.exit`. It builds the same `GMAIL_REFRESH_TOKEN_<NAME>` variable name, but without the name check.
- `src/index.ts` is not part of this model: it is console glue around `loadConfig`.
- `process.env` is the explicit `Env` parameter.
- zod's own error texts and the `ZodError` message are not modelled. A schema failure is one `SchemaInvalid` error carrying the violations: field, kind, and the rejected enumeration value.
- EnvConfig.Message: requires `!e.SchemaInvalid?`, because that text is zod's own.
- EnvConfig.Message: its contract states where the name, the variable and the provider appear in each text, not the whole text. The body holds the texts verbatim.
- Strings are sequences of Unicode scalar values, not UTF-16 code units. The input may hold characters outside the Basic Multilingual Plane. Every character the loader compares against is inside it: the comma, the trim-space set and `[A-Za-z0-9_]`. No half of a surrogate pair equals any of them, so the two views give the same result.
- The whitespace set `trim` removes is the one of current Unicode. A JavaScript engine built on an older Unicode version may differ on the `Zs` characters.
- `toUpperCase` is modelled on ASCII only. It is applied only after the name has matched the ASCII pattern, so this is exact.
- An earlier single-account variant of this loader read one `GMAIL_REFRESH_TOKEN`. That variant is not in `src/config.ts`, and the model follows the code.
- Account errors are not aggregated. The code stops at the first failing name and collects only the schema's violations together, and the model does the same.
