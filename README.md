# budgetTool core, modelled in Dafny

This project models the server-side core of budgetTool, a FastAPI budgeting service. It covers four parts:

- **Secret lookup (`get_key`).** A value for a (group, key) pair is looked up in this order:
  - the environment, under three spellings: `group_key`, `GROUP_KEY`, `Group_Key`;
  - a file `cred/group/group_key`, first relative to the working directory, then under `/`;
  - a truthy default.
  
  The first non-empty value wins. Otherwise the lookup raises "No Key Found". The environment and the filesystem are read-only snapshots: `map`s from name to value and from path to decoded content.
- **Database configuration records.** `ConfigManager` is fixed to the `dev` tag. The Postgres record resolves `db`, `host`, `port`, `user`, `password` in group `postgres`. The Redis record resolves `host`, `port`, `password` in group `redis_dev`. A record is built only if every key resolves; the first missing key stops construction. `get_config` renames `db` to `database` and `user` to `username`.
- **Connection helpers.** These cover:
  - the keyword arguments `get_postgres_pool` hands to the pool;
  - the shaping of a query result, either as the raw records or as a table;
  - the in-place loop that rewrites `datetime64` columns to text the way `astype(str)` does: `YYYY-MM-DD HH:MM:SS`, or `YYYY-MM-DD` when every timestamp of the column is at midnight, and `NaT` for missing values. The loop looks each column up by its label, so a `datetime64` column whose label another column shares (`SELECT now(), now()`) is selected as a table, fails the dtype test and is left unconverted. The model converts a column only when its label is its own.
- **Record validators.** These are the pydantic field and model validators of budget periods, accounts, transactions and categories, their enumerations, and their declared bounds. Each validator returns `Ok(value)`, or `Err(message)` with the message the source raises.

Modules:

- `Outcomes`: `Option`, `Result`.
- `PyText`: `strip`, with Python's whitespace set, plus `upper`, `capitalize`, `isalpha` and `isupper`.
- `CredManager`, `Configuration`, `Timestamps`, `Connections`.
- `Budgets`, `Accounts`, `Transactions`, `Categories`.

The declared bounds are stated as predicates:

- `Budgets.PeriodDeclaredBounds`
- `Budgets.BudgetDeclaredBounds`
- `Accounts.AccountDeclaredBounds`
- `Transactions.TransactionDeclaredBounds`
- `Categories.CategoryDeclaredBounds`

## Model

| member | source | states |
|---|---|---|
| `PyText.Strip` | api/app/models/categories.py:20-22 | `strip()` leaves no whitespace at either end, and is empty exactly when the input is all whitespace |
| `PyText.StripIsMiddle` | api/app/models/categories.py:22 | what `strip()` cuts off on both sides is whitespace: the result is the middle of the input |
| `PyText.StripOfTrimmed` | api/app/models/categories.py:22 | a string with no surrounding whitespace is its own strip |
| `PyText.StripIdempotent` | api/app/models/categories.py:22 | stripping twice is stripping once |
| `CredManager.FirstNonEmptyIsEarliest` | api/app/cred_manager.py:9-18 | the reference search over the spellings finds a value iff some spelling is set non-empty, and then it is the earliest such |
| `CredManager.EnvProbe` | api/app/cred_manager.py:9-18 | the probe returns the lookup of one of the three spellings, and the exact spelling's value whenever that is non-empty |
| `CredManager.EnvProbeIsFirstNonEmpty` | api/app/cred_manager.py:9-18 | the environment probe is truthy iff some spelling is set non-empty, and then it returns the first one in the order exact, upper, capitalized |
| `CredManager.FolderProbeFrom` | api/app/cred_manager.py:26-31 | the search over the locations yields nothing iff no candidate file exists, and otherwise the content of an existing file |
| `CredManager.FolderProbe` | api/app/cred_manager.py:25-31 | nothing iff neither `cred/group/group_key` nor `/cred/group/group_key` exists |
| `CredManager.FolderProbeIsEarliest` | api/app/cred_manager.py:25-31 | the folder search finds something iff a candidate file exists, and returns the content of the earliest existing one |
| `CredManager.GetKeyFromFolder` | api/app/cred_manager.py:25-31 | the location loop returns exactly what the folder search specifies |
| `CredManager.GetKey` | api/app/cred_manager.py:34-57 | every successful lookup is non-empty |
| `CredManager.FoundIff` | api/app/cred_manager.py:42-57 | the lookup succeeds iff the environment probe, the folder probe or the default is truthy |
| `CredManager.ExactEnvWins` | api/app/cred_manager.py:10-12 | a non-empty exact-case variable is returned whatever the files and the default hold |
| `CredManager.EnvPrecedence` | api/app/cred_manager.py:42-44 | an environment hit is the first non-empty spelling |
| `CredManager.EnvShadowsFilesAndDefault` | api/app/cred_manager.py:42-48 | when some spelling is non-empty, the files and the default do not affect the result |
| `CredManager.FolderProbeOrder` | api/app/cred_manager.py:26-31 | the relative file is read first, even when empty; the file under `/` only when the relative one is absent |
| `CredManager.FileBeforeDefault` | api/app/cred_manager.py:46-48 | with no environment hit, a non-empty file is returned unmodified, whatever the default |
| `CredManager.EmptyRelativeFileShadowsRoot` | api/app/cred_manager.py:29-31 | an empty relative file hides the file under `/`, and the result falls through to the default |
| `CredManager.DefaultIsLastResort` | api/app/cred_manager.py:54-57 | with nothing from environment or files, the result is a truthy default or else the failure |
| `CredManager.EmptyDefaultIgnored` | api/app/cred_manager.py:54-55 | a default of "" behaves as no default |
| `CredManager.FailsIff` | api/app/cred_manager.py:34-57 | the lookup fails iff all three spellings are unset or empty, the first existing file (if any) is empty, and the default is not truthy |
| `CredManager.HostFromEnvironment` | api/app/cred_manager.py:10-12 | `postgres_host` set in the environment is what the lookup returns |
| `CredManager.PasswordMissing` | api/app/cred_manager.py:57 | with nothing set and no default the lookup fails |
| `Configuration.ConfigManager.constructor` | api/app/database/configuration.py:8-10 | the deployment tag is `dev` |
| `Configuration.ConfigManager.GetSecret` | api/app/database/configuration.py:13-14 | `name` is ignored and the lookup runs with no default |
| `Configuration.GetSecretFailsIff` | api/app/database/configuration.py:13-14 | a secret fails iff neither the environment nor a file gives a non-empty value, whatever `name` is |
| `Configuration.PrefixResolvesIff` | api/app/database/configuration.py:19-25 | a run of lookups succeeds iff each of its keys resolves |
| `Configuration.MissingBreaksPrefix` | api/app/database/configuration.py:19-25 | one unresolved key makes every run of lookups containing it fail |
| `Configuration.StoppedAtFirstMissing` | api/app/database/configuration.py:19-25 | construction stops at the first key that does not resolve, after every earlier key resolved |
| `Configuration.StoppedAtUnique` | api/app/database/configuration.py:38-42 | the stopping point is unique; with `Load`'s ghost `attempts`, which counts the lookups made, this means no key after it is looked up |
| `Configuration.PostgresDatabaseConfiguration.FromSecrets` | api/app/database/configuration.py:21-25 | the record holds the five resolved secrets |
| `Configuration.PostgresDatabaseConfiguration.Load` | api/app/database/configuration.py:17-25 | a record is produced iff all of `db`, `host`, `port`, `user`, `password` resolve in `postgres`, each field holding its secret; otherwise "No Key Found", raised at the first missing key |
| `Configuration.PostgresDatabaseConfiguration.GetConfig` | api/app/database/configuration.py:27-34 | exactly the keys `database`, `host`, `port`, `username`, `password`, holding the `db`, `host`, `port`, `user`, `password` secrets |
| `Configuration.RedisDatabaseConfiguration.FromSecrets` | api/app/database/configuration.py:40-42 | the record holds the three resolved secrets |
| `Configuration.RedisDatabaseConfiguration.Load` | api/app/database/configuration.py:36-42 | a record is produced iff `host`, `port`, `password` resolve in `redis_dev`, each field holding its secret; otherwise "No Key Found", raised at the first missing key |
| `Configuration.RedisDatabaseConfiguration.GetConfig` | api/app/database/configuration.py:44-49 | exactly the keys `host`, `port`, `password` |
| `Timestamps.DigitsRoundTrip` | api/app/database/postgres/connections.py:49 | zero-padding to a fixed width loses nothing for numbers that fit |
| `Timestamps.StampText` | api/app/database/postgres/connections.py:49 | a timestamp's text has 10 characters in the date-only form and 19 otherwise |
| `Timestamps.StampRoundTrip` | api/app/database/postgres/connections.py:49 | a valid timestamp is read back exactly from its text (from the date-only form when at midnight) |
| `Connections.GetPostgresPool` | api/app/database/postgres/connections.py:11-30 | the pool arguments exist iff the Postgres record can be built; the size bounds and timeout pass through; `user` is the `user` secret (via `username`), and `database`, `host`, `port`, `password` their secrets |
| `Connections.StartupPool` | api/main.py:18 | with no arguments the pool is created with `min_size` 1, `max_size` 2, `timeout` 1000 |
| `Connections.ColumnNames` | api/app/database/postgres/connections.py:38-39 | one column name per attribute, in order, each the attribute's name |
| `Connections.BuildFrame` | api/app/database/postgres/connections.py:44 | the table has one column per name, in order, with the given dtype, and cell (r, c) is field c of record r |
| `Connections.EmptyResultKeepsColumnNames` | api/app/database/postgres/connections.py:38-39 | the column names come from the attributes, in order, even with no records |
| `Connections.AsStrings` | api/app/database/postgres/connections.py:49 | `astype(str)` keeps the label and the row count and gives a column of strings |
| `Connections.NormaliseColumn` | api/app/database/postgres/connections.py:47-49 | a column stays `datetime64` iff it was `datetime64` and another column shares its label; non-datetime and shared-label columns are unchanged; a datetime column with its own label becomes strings |
| `Connections.Normalised` | api/app/database/postgres/connections.py:47-49 | the loop keeps the number and the labels of the columns, in order |
| `Connections.NormaliseDatetimeColumns` | api/app/database/postgres/connections.py:47-49 | the in-place loop leaves the array equal to the normalised table |
| `Connections.NormalisedShape` | api/app/database/postgres/connections.py:44-51 | normalisation keeps order, labels and row count and leaves non-datetime columns unchanged; a datetime column with its own label becomes strings, one whose label is shared stays as it was; with distinct labels no datetime column remains |
| `Connections.NormalisedIdempotent` | api/app/database/postgres/connections.py:47-49 | normalising twice is normalising once |
| `Connections.NormalisedLossless` | api/app/database/postgres/connections.py:48-49 | in a converted column, each valid timestamp reads back from its text, and any other cell is `NaT` |
| `Connections.SharedLabelKeepsDatetime` | api/app/database/postgres/connections.py:47-49 | for `SELECT now(), now()` both `now` columns stay `datetime64` and the table is unchanged |
| `Connections.Postgres` | api/app/database/postgres/connections.py:34-51 | with `table_format` false, the records unchanged; otherwise the table with one column per attribute, in order, one cell per record, `datetime64` exactly where the attribute was `datetime64` and its name is shared, so none when the attribute names are distinct |
| `Budgets.BeforeIsStrictTotalOrder` | api/app/models/budgets.py:27 | date `<` is irreflexive, transitive and total |
| `Budgets.PeriodDeclaredBounds` | api/app/models/budgets.py:9-12 | a budget period's name has at most 100 characters |
| `Budgets.PeriodNameNotEmpty` | api/app/models/budgets.py:18-23 | rejected iff empty or whitespace-only, with the source's message; otherwise the stripped name, non-empty |
| `Budgets.PeriodNameStaysWithinBound` | api/app/models/budgets.py:9-12 | a name within `max_length` 100 stays within it once stripped |
| `Budgets.CheckDates` | api/app/models/budgets.py:25-29 | accepted iff the start date is on or before the end date, and then returned unchanged |
| `Budgets.SameDayPeriodAccepted` | api/app/models/budgets.py:27 | equal start and end dates are accepted |
| `Budgets.SwappedDatesRejected` | api/app/models/budgets.py:27-28 | swapping the dates of a valid multi-day period makes it invalid |
| `Budgets.BudgetDeclaredBounds` | api/app/models/budgets.py:38-41 | a budget's allocated amount is at least 0 |
| `Accounts.ParseAccountType` | api/app/models/accounts.py:8-15 | a parsed member has the parsed string as its value |
| `Accounts.AccountTypeRoundTrip` | api/app/models/accounts.py:8-15 | every member parses back from its value |
| `Accounts.AccountTypeValuesExact` | api/app/models/accounts.py:8-15 | exactly the seven values `checking`, `savings`, `credit_card`, `cash`, `investment`, `loan`, `other` are accepted |
| `Accounts.AccountDeclaredBounds` | api/app/models/accounts.py:19-22 | an account name has at most 100 characters |
| `Accounts.NewAccount` | api/app/models/accounts.py:19-27 | each field holds the argument given; `currency` defaults to "USD" |
| `Accounts.AccountDefaults` | api/app/models/accounts.py:24-27 | given only a name and a type, the currency is "USD", which the currency validator accepts |
| `Accounts.AccountNameNotEmpty` | api/app/models/accounts.py:32-37 | rejected iff empty or whitespace-only, with the source's message; otherwise the stripped name, non-empty |
| `Accounts.ValidateCurrencyCode` | api/app/models/accounts.py:39-44 | accepted iff `isalpha()` and `isupper()`, and then returned unchanged |
| `Accounts.CurrencyCodeAcceptedIff` | api/app/models/accounts.py:42 | the accepted codes are exactly the non-empty strings of upper-case letters, of any length |
| `Accounts.CurrencyLengthNotChecked` | api/app/models/accounts.py:42-43 | "EURO" and "US" pass, although the message asks for 3 letters; "" and "Usd" fail |
| `Accounts.DefaultCurrencyValid` | api/app/models/accounts.py:24-27 | the default "USD" satisfies the currency validator |
| `Transactions.ParseTransactionType` | api/app/models/transactions.py:9-13 | a parsed member has the parsed string as its value |
| `Transactions.TransactionTypeRoundTrip` | api/app/models/transactions.py:9-13 | every member parses back from its value |
| `Transactions.TransactionTypeValuesExact` | api/app/models/transactions.py:9-13 | exactly `income`, `expense`, `transfer_in`, `transfer_out` are accepted; `TRANSFER` means `transfer_in` |
| `Transactions.TransactionDeclaredBounds` | api/app/models/transactions.py:18-32 | a description of 1 to 200 characters, an amount of at least 0, and a merchant name, when present, of at most 150 characters |
| `Transactions.NewTransaction` | api/app/models/transactions.py:17-34 | each field holds the argument given; `category_id`, `merchant_name` and `is_recurring` default to none, none and false |
| `Transactions.TransactionDefaults` | api/app/models/transactions.py:27-34 | given only the required fields, a transaction has no category, no merchant and is not recurring |
| `Transactions.DescriptionNotEmpty` | api/app/models/transactions.py:39-44 | rejected iff empty or whitespace-only, with the source's message; otherwise returned exactly as given |
| `Transactions.AcceptedDescriptionMeetsMinLength` | api/app/models/transactions.py:18-24 | an accepted description already meets `min_length` 1 |
| `Transactions.DescriptionKeepsWhitespace` | api/app/models/transactions.py:44 | " rent " is accepted as " rent ", unstripped |
| `Categories.CategoryDeclaredBounds` | api/app/models/categories.py:11 | a category name has at most 100 characters |
| `Categories.NewCategory` | api/app/models/categories.py:11-13 | each field holds the argument given; `parent_category_id` and `notes` default to none |
| `Categories.CategoryDefaults` | api/app/models/categories.py:12-13 | given only its name, a category has no parent and no notes |
| `Categories.CategoryNameNotEmpty` | api/app/models/categories.py:17-22 | rejected iff empty or whitespace-only, with the source's message; otherwise the stripped name, non-empty |
| `Categories.CategoryNameIdempotent` | api/app/models/categories.py:22 | an accepted name is accepted again, unchanged |
| `Categories.CategoryNameStaysWithinBound` | api/app/models/categories.py:11 | a name within `max_length` 100 stays within it once stripped |

## Left out

- The keyring source (`_get_key_from_keyring`) is never called, and `load_dotenv` only fills the environment. The environment is an input here.
- Reading a credential file is not modelled. The filesystem map holds each regular file's content already decoded; a file that is not valid UTF-8, which raises in the source, is not modelled.
- `CredManager.EnvProbe`: `upper()` and `capitalize()` change ASCII letters only. Python also maps non-ASCII letters, so spellings built from non-ASCII group or key names may differ.
- `Accounts.ValidateCurrencyCode`: `isalpha()` and `isupper()` consider ASCII letters only. Python also accepts non-ASCII letters, such as upper-case accented ones.
- `Configuration.PostgresDatabaseConfiguration.Load`: the record is built in one step after the last successful lookup, not field by field. No partly filled object is ever observable, because the first failure raises.
- `Configuration.RedisDatabaseConfiguration.Load`: the record is built in one step after the last successful lookup, not field by field. No partly filled object is ever observable, because the first failure raises.
- Lookups have no visible effect in the model, so the ghost `attempts` count stands for how many lookups were made.
- `asyncpg.create_pool` itself, pool start-up and shutdown, and per-request leases are not modelled. The model stops at the arguments the pool is created with.
- Preparing and running the query is not modelled. The records, the statement's attributes and the dtype pandas infers for each column are inputs, and every record has one field per attribute.
- `Timestamps.StampText`: timestamps have whole seconds and no time zone. Fractional seconds and time-zone suffixes of `astype(str)` are not modelled.
- `Connections.Postgres`: `table_format` is a boolean. A non-boolean such as `None`, which is not `== False`, is not modelled.
- Pydantic's own type coercion, validation order and enforcement of declared bounds are not modelled. The bounds are stated as predicates over each record's datatype.
- `Decimal` amounts are real numbers.
- `currency`, declared `Decimal`, is validated as a string, as its validator treats it.
- UUID default factories, `created_at`/`updated_at`, the `notes` fields of `Account` and `Transaction`, and the `transaction_date` default (today's date, a clock read) are not modelled.
- Exceptions are modelled by their message only. Their Python types are not modelled.
- The HTTP routers, the application set-up, the frontend, the logging utilities and `api/app/database/__init__.py` are not part of this model.
