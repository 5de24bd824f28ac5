# Nexxus, modelled and proved in Dafny

Nexxus is a backend for real-time applications: an API accepts reads, writes and subscriptions on
application models, workers carry the writes out and fan the changes out to subscribed devices. This
project models the parts of it that decide something and proves what they promise. `dafny verify
dfyconfig.toml` checks the whole project.

## What is modelled

**Filters.** `FilterQuery` parses a nested query against a schema into a tree and tests records against
the tree. `FilterAcceptance` says which conditions it takes. `QueryMeaning` gives queries the meaning they
have as written, from the names of their operators to the plain comparison of values, and says when the
parsed filter has it. `EsCompiler` is the database adapter's compiler: a flat pre-order stream of `(node,
depth)` pairs turned back into a boolean query by a stack machine, against the recursive translation of
the tree. `EsBuilder` is the same loop on the heap, with query objects shared between the stack and their
parents' lists. `EsMeaning` says what the compiled query matches and which filters the database takes,
`Views` evaluates one filter tree in memory or in the database, and `EsAgreement` compares the two.

**Access control.** `AclStatements` and `Acl` are the statement language, the lowering of conditions into
filters, and the engine that aggregates roles. `AclMeaning` states what the statements grant without
mentioning filters and proves that the engine decides exactly that; `AclRules` draws from it what roles of
some few tokens can and cannot do. `FilterFolding` folds a constraint, an id and a user id into a client's
filter, and `AclSearch` compares a constraint that is searched for with the same constraint checked on one
object.

**Schemas and patches.** `SchemaValidator` validates and normalises records. `ModelSchemas` derives the
schema filters are compiled against, collects the fields they can name, and cuts records down to those.
`JsonPatch` validates patches in place, `CreatedRecords` asks which created records they keep conforming,
`PatchScripts` says what one operation does to a document, and
`PatchMerge` merges all patches of a document into one script and runs the scripts against a store.

**Sessions.** `Session` is one refresh-session call (the rotation idea of section 10.4 of RFC 6749)
against a store that others write to between its commands. `SessionInterleaving` is the state machine of
any number of calls, interleaved command by command.

**Subscriptions.** `SubscriptionKeys` prints and parses channel keys, `SubscriptionIndex` is the four Redis
structures under the strings they are stored by, and `SubscriptionRelation` says when they stand for the
plain set of subscriptions. `DeviceLookup` finds the recipients of an event through them, `FanOut` batches
the recipients, and `ChangeEvents` follows the cut-down records of updates and deletes through both.
`DeviceSubscriptions` keeps a device's own list, and `SubscriptionRemoval` says when removing all of it
leaves nothing behind.

**Delivery and consumption.** `MessageDelivery` is the retry loop of one delivery and its settlement;
`ConsumptionControl` is the connection, pause and stop flags of a worker driven by its view of the
services.

**Devices on accounts.** `DeviceLinking` is the link-then-save protocol and its time-guarded clean-up,
as interleaved requests that may stop at any point and whose writes may land late.

`Values`, `Schemas` and `Texts` hold what the others share. The code's loops and mutable objects are
methods and classes proved against functions; the results about those functions are lemmas. Conversions
of the language runtime (`Number(s)`, `Date.parse(s)`), digests, secrets and the clock are parameters.

## Where the code does less than a reader may expect

Each of these is a concrete input, with the exact condition under which the code does meet the property.

- The parser flattens the members of a logical list. `{ $or: [ { a: 1, b: 2 } ] }` becomes "a is 1 or b
  is 2" (`TwoKeyOrWidens`). The parsed list tests what is written if and only if every member has one key
  (`OrIsExactIffSingleKeys`). Every filter that access control produces is of that kind.
- `{ $or: [ {} ] }` parses to a disjunction of nothing, which accepts no record in memory and matches
  every document in the database (`EmptyOrFindsEverything`). An `$or` whose members agree agrees if and
  only if it has a member (`OrAgreesIffNonEmpty`).
- In memory `ne` is false on an absent field; in the database it is true. A leaf agrees if and only if
  that case does not arise (`LeafAgreement`). So a search under a role's constraint "status is not
  secret" finds an object without a status, which the row check on that object refuses
  (`SearchFindsWhatIsRefused`). Row check and search agree on all conforming objects if and only if each
  such rule is on a field that cannot be absent: required, in objects that are required and not nullable,
  or called for by an equality rule of the same condition; or no object can meet the equality rules at
  all (`SearchAgreesWithRowCheckIff`).
- An operator that does not exist passes the parser; it is false in memory, and the database refuses the
  whole search (`UnknownOperatorIsParsed`, `UnknownOperatorIsRefused`). So does a date given as text,
  because date fields are mapped as whole seconds (`DateStringIsRefused`), and one the mapping can read is
  found where the test fails (`DateStringIsFoundNotTested`). A condition on an array of dates takes texts
  only, so it is never met in memory (`DateArrayIsNeverTested`). A search is taken if and only if every
  operator is known and every date can be read (`AcceptedIffSearchable`).
- A channel key read back is the channel printed if and only if no identifier is empty or holds a colon,
  there are not both ids, and the model id is not `user` or `filter` (`FromKeyInvertsGetKeyIff`). Requests
  are checked only for both ids. A subscription to the model id `user:bob` shares its Redis sets with the
  subscriptions to user bob (`UserKeyIsAModelKey`), and unsubscribing from one takes the device off the
  other (`SharedKeyDisagrees`). The index stands for the subscriptions asked for, in every run, if and only
  if no two of the requests ask for different channels with one key (`RunsAgreeIff`).
- A listed key is parsed when the device is loaded. After a subscription to the model id `x:y` one to `y` is
  taken for listed already (`ColonIdBlocksAnother`), and `removeAllSubscriptions` removes `y` in the place of
  `x:y` (`ColonIdReadsAsAnother`). Removing all of a device's subscriptions leaves the device sets, the
  partition index and the counters as they were if and only if every channel taken is printable
  (`RestoredIff`, `SubscribeAndLeave`).
- The guard before ids are taken off an account compares the clock with `updatedAt`, and every writer of the
  account takes that stamp before its write is sent (`src/api/src/lib/DeviceRegistration.ts:244-261`,
  `src/api/src/lib/routes/User.ts:276-300`). A link that lands late is guarded for the rest of its minute
  only, and a device can be taken off its account and saved afterwards (`SlowLinkLoses`). If writes land at
  most D seconds after their stamps and saves at most W seconds after their links, every saved device stays
  listed, and no id taken off ever names a device, if and only if D + W < 60 (`SavedDevicesAreListedIff`,
  `UnlinkedNeverExistsIff`). The code bounds neither.
- Schemas are closed but for the names every object inherits: an undeclared field is refused if and only
  if it is not one of them (`UndeclaredIsRefusedIff`), so `{ "toString": "x" }` is stored
  (`InheritedNameIsStored`); a declared field with such a name is in effect required
  (`InheritedMustBeGiven`).
- Ending a session is unconditional. A log-out with one session's secret ends a session started between
  its read and its clear, which does not know the secret (`UnknownSecretCanEndASession`). What a log-out,
  a replay or an expiry ends is of the line its secret matched if and only if nothing was started in
  between (`EndingIsOfMatchedLineIff`).
- A created record meets the schema that patches are checked against if and only if the body brought no
  `updatedAt`, or one in whole seconds, and there is a caller where the application has users: reserved names
  are not checked (`CreatedIsPatchableIff`).
- Field names are not restricted, and scripts name fields. A valid patch of a field whose name is neither an
  identifier nor a number fails on every document (`HyphenDoesNotCompile`); any other fails if and only if
  something above its path is no object (`ApplyConforms`).
- `hasSubscription` (`src/redis/src/lib/models/Device.ts:542-565`) looks a key up in the device object's
  own list and then in the stored one; the stored read returns an array of matches, so the second look
  finds nothing. The model has the first look only.
- The comment above `validateDate` (`src/core/src/common/SchemaValidator.ts:168-174`) speaks of
  milliseconds; the code and the comment after it use whole seconds, and so does the model.

## Model

| member | source | states |
|---|---|---|
| `Schemas.GetFieldFromPath` | src/core/src/common/FilterQuery.ts:257-288 | The walk finds the definition a path names, through object fields only; a missing name or a path through anything else finds nothing |
| `FilterQuery.ParseQuery` | src/core/src/common/FilterQuery.ts:100-135 | The loop over a query's keys yields one node per key in order, refuses as a whole on any bad key, an empty logical list or one that is no array, and flattens each logical list into one list of children |
| `FilterQuery.FlatMapParse` | src/core/src/common/FilterQuery.ts:116-118 | The members of a logical list parse, in order, into one flat list, or the whole list is refused |
| `FilterQuery.TestDependsOnPaths` | src/core/src/common/FilterQuery.ts:80-94 | Two records that agree on the paths a filter names get the same verdict |
| `FilterQuery.TestIsMonotone` | src/core/src/common/FilterQuery.ts:137-145 | Defining more fields never makes an accepted record rejected |
| `QueryMeaning.ParsedMeaning` | src/core/src/common/FilterQuery.ts:100-135 | Main result: a parsed query, tested in memory, accepts every record that the written query means, operator names and all, when no `$or` member is empty; and exactly those when each `$or` member has one key |
| `QueryMeaning.LeafIsNamed` | src/core/src/common/FilterQuery.ts:137-184 | A leaf, tested or searched for, holds as the name of its operator says of the values: equal, different, one of, greater, at least, less, at most |
| `QueryMeaning.ParsedLeafMeans` | src/core/src/common/FilterQuery.ts:186-255 | The parser keeps what a condition says by its operator's name, or by equality where it is a bare literal |
| `FilterAcceptance.ParsesIff` | src/core/src/common/FilterQuery.ts:186-330 | A condition is taken if and only if its path names a filterable field and the field's type takes its literals: range operators on numbers and dates, `in` with a list, date strings in arrays of dates |
| `QueryMeaning.ParsedMeans` | src/core/src/common/FilterQuery.ts:100-135 | The same for a filter evaluated in memory or searched for in the database |
| `QueryMeaning.ParsedMembersMean` | src/core/src/common/FilterQuery.ts:104-134 | The same for a list of keys, which parse to as many nodes |
| `QueryMeaning.ParsedMemberMeans` | src/core/src/common/FilterQuery.ts:106-131 | The same for one key |
| `QueryMeaning.ParsedAndMeans` | src/core/src/common/FilterQuery.ts:86-88 | Flattening an `$and` list keeps its meaning whatever the number of keys in its members |
| `QueryMeaning.ParsedOrMeans` | src/core/src/common/FilterQuery.ts:90-93 | Flattening an `$or` list keeps its meaning when each member has one key, and never loses a record when none is empty |
| `QueryMeaning.OrIsExactIffSingleKeys` | src/core/src/common/FilterQuery.ts:116-124 | Main result: for `$or` lists with given numbers of keys in their members, what the parser makes of the list tests what is written, under every schema and on every record, if and only if each member has exactly one key |
| `QueryMeaning.ParsedOrIsFlatOr` | src/core/src/common/FilterQuery.ts:116-124 | What the parser makes of an `$or` list holds exactly when some key of some member does |
| `QueryMeaning.SingleKeysAreExact` | src/core/src/common/FilterQuery.ts:116-124 | With one key in each member, nothing is lost or added by flattening |
| `QueryMeaning.EmptyMemberDisagrees` | src/core/src/common/FilterQuery.ts:116-124 | With an empty member, the record without fields is meant and not accepted |
| `QueryMeaning.WideMemberDisagrees` | src/core/src/common/FilterQuery.ts:116-124 | With a member of several keys and none that is empty, a record with the first field only is accepted and not meant |
| `QueryMeaning.TwoKeyOrWidens` | src/core/src/common/FilterQuery.ts:116-118 | A concrete `$or` with one member of two keys accepts a record that meets only one of them |
| `EsCompiler.PopKeepsIncreasing` | src/database/src/lib/ElasticsearchDb.ts:966-969 | After the pops for a node the open frames still have strictly increasing depths from the root, all smaller than the node's |
| `EsCompiler.RunKeepsIncreasing` | src/database/src/lib/ElasticsearchDb.ts:965-1045 | On every stream, at every point of it, the stack holds frames of strictly increasing depth |
| `EsCompiler.PopTwice` | src/database/src/lib/ElasticsearchDb.ts:966-969 | Popping to one depth and then to a smaller one is popping to the smaller one |
| `EsCompiler.RunConcat` | src/database/src/lib/ElasticsearchDb.ts:965-1045 | Running two streams one after the other is running their concatenation |
| `EsCompiler.RunTraverse` | src/database/src/lib/ElasticsearchDb.ts:965-1045 | Running the pre-order stream of a list of siblings from any stack adds exactly their direct translations to the frame on top, once what they left open is closed |
| `EsCompiler.RunNode` | src/database/src/lib/ElasticsearchDb.ts:982-1001 | The same for one node with its subtree |
| `EsCompiler.MachineTranslates` | src/database/src/lib/ElasticsearchDb.ts:954-1050 | Main result: the query the stack machine has built from the `(node, depth)` stream is the recursive translation of the tree, for every filter |
| `EsBuilder.BoolQuery.constructor` | src/database/src/lib/ElasticsearchDb.ts:984-991 | A new query object has one empty list: `should` with `minimum_should_match` 1 for `$or`, `must` otherwise |
| `EsBuilder.ShowsOneQuery` | src/database/src/lib/ElasticsearchDb.ts:954-1050 | The query objects on the heap show one query only |
| `EsBuilder.CloseLinked` | src/database/src/lib/ElasticsearchDb.ts:966-969 | Popping an entry writes nothing: the object only stops being open, and its parent's list already holds it |
| `EsBuilder.RootShows` | src/database/src/lib/ElasticsearchDb.ts:1049 | When the stream ends the root object, with all it shares with the stack, shows what the machine has built |
| `EsBuilder.PopStack` | src/database/src/lib/ElasticsearchDb.ts:966-969 | The pop loop leaves the entries whose depth is smaller than the node's, and changes no query object |
| `EsBuilder.AppendLeaf` | src/database/src/lib/ElasticsearchDb.ts:1031-1043 | A field's query is appended to the list that the operator of the object on top calls for |
| `EsBuilder.AppendLogical` | src/database/src/lib/ElasticsearchDb.ts:984-998 | A fresh object is appended to the object on top and becomes the open one |
| `EsBuilder.AddItem` | src/database/src/lib/ElasticsearchDb.ts:965-1045 | One turn of the loop over the shared objects does one step of the machine |
| `EsBuilder.BuildFilterQuery` | src/database/src/lib/ElasticsearchDb.ts:954-1050 | Main result: the objects the loop allocates and shares show the recursive translation of the filter; without a filter everything is matched |
| `EsMeaning.ParsedFits` | src/core/src/common/FilterQuery.ts:186-255 | Every leaf of a parsed filter names a filterable field and holds values of its type |
| `EsMeaning.AcceptedIffSearchable` | src/database/src/lib/ElasticsearchDb.ts:1003-1028 | The database takes a compiled filter if and only if every operator in it is known and every literal on a date field can be read as whole seconds |
| `EsMeaning.PlainIsSearchable` | src/database/src/lib/ElasticsearchDbBootstrapper.ts:242-246 | A filter of known operators that gives dates as numbers is one the database takes |
| `EsMeaning.LeafAgreement` | src/database/src/lib/ElasticsearchDb.ts:1007-1028 | At a leaf that is not a date given as a string the test implies the query, and on a conforming record the two agree if and only if a `ne` meets a field that is present |
| `Views.HoldsInMemory` | src/core/src/common/FilterQuery.ts:80-94 | The common evaluation of a filter tree, in memory, is the test |
| `Views.HoldsInDatabase` | src/database/src/lib/ElasticsearchDb.ts:982-1044 | The same evaluation, in the database, is what the compiled query matches |
| `Views.FindsAllThatHold` | src/database/src/lib/ElasticsearchDb.ts:954-1050 | A search with a filter finds exactly the records that all its conditions hold of, where the database takes the filter |
| `EsAgreement.HoldsInBoth` | src/database/src/lib/ElasticsearchDb.ts:1003-1044 | What holds in memory holds in the database; on conforming records with the fields `ne` names, and without an empty `$or`, the other way too |
| `EsAgreement.TestedIsMatched` | src/database/src/lib/ElasticsearchDb.ts:1003-1044 | Whatever the test accepts the compiled query matches; on a conforming record that has the fields `ne` names they agree, when no `$or` is empty |
| `EsAgreement.SearchAgreesWithTest` | src/database/src/lib/ElasticsearchDb.ts:943-950 | Main result: the same for a whole parsed query searched in the database, refusals included |
| `EsAgreement.DefinedIsPresent` | src/core/src/common/FilterQuery.ts:141-145 | A record that defines every field a filter mentions defines those its `ne` conditions name |
| `EsAgreement.OrAgreesIffNonEmpty` | src/database/src/lib/ElasticsearchDb.ts:986-991 | An `$or` whose members agree agrees itself if and only if it has a member |
| `EsAgreement.EmptyOrFindsEverything` | src/core/src/common/FilterQuery.ts:116-124 | `{ $or: [ {} ] }` parses to an `$or` without a member, which accepts nothing in memory and finds every document in the database |
| `EsAgreement.UnknownOperatorIsParsed` | src/core/src/common/FilterQuery.ts:233-254 | A condition with an operator the language does not have passes the parser |
| `EsAgreement.UnknownOperatorIsRefused` | src/database/src/lib/ElasticsearchDb.ts:1023-1027 | A filter with one can accept a record in memory while the database refuses the search |
| `EsAgreement.DateStringIsRefused` | src/database/src/lib/ElasticsearchDbBootstrapper.ts:242-246 | A date given as text passes the parser, the filter can accept a record in memory, and the database refuses the search |
| `EsAgreement.DateStringIsFoundNotTested` | src/database/src/lib/ElasticsearchDbBootstrapper.ts:242-246 | A date string the database can read finds the record of that second, which the test never accepts |
| `EsAgreement.DateArrayIsNeverTested` | src/core/src/common/FilterQuery.ts:341-372 | A condition on an array of dates takes date strings only; conforming records hold seconds, so it is never met in memory, and the database finds what it reads off the text, or refuses |
| `SchemaValidator.NormalizeFields` | src/core/src/common/SchemaValidator.ts:68-99 | The loop over the schema succeeds and fails exactly where the value-level validation does, with the same normalised record: undeclared names that are not inherited, missing, null and mistyped fields are refused |
| `SchemaValidator.ResultIsNormalized` | src/core/src/common/SchemaValidator.ts:231-284 | A record with every declared field normalised and the rest kept is the result of validating the input |
| `SchemaValidator.PrimOutputConforms` | src/core/src/common/SchemaValidator.ts:136-229 | A validated primitive is of its type, dates as whole seconds, and one already so is returned unchanged |
| `SchemaValidator.ValidValuesConform` | src/core/src/common/SchemaValidator.ts:108-134 | What validation of a field returns conforms to its definition all the way down, and what conforms is returned unchanged |
| `SchemaValidator.ValidObjectsConform` | src/core/src/common/SchemaValidator.ts:231-284 | The same for objects: complete, null only where allowed, and closed but for inherited names |
| `SchemaValidator.ConformingIffUnchanged` | src/core/src/common/SchemaValidator.ts:41-100 | A record is a fixed point of validation if and only if it conforms and carries no `version`; normalising twice is normalising once |
| `SchemaValidator.UndeclaredIsRefusedIff` | src/core/src/common/SchemaValidator.ts:59-66 | An undeclared name in an otherwise acceptable object is refused if and only if it is not one every object inherits |
| `SchemaValidator.InheritedMustBeGiven` | src/core/src/common/SchemaValidator.ts:70-82 | A declared name that every object inherits is never taken for absent: an object without it is refused |
| `SchemaValidator.InheritedNameIsStored` | src/core/src/common/SchemaValidator.ts:59-66 | A body with the one field `toString` is stored under a schema without fields |
| `SchemaValidator.SecondPassChangesNothing` | src/worker/src/lib/WriterWorker.ts:78 | Main result: a record the first pass returned conforms, closed but for inherited names, and with system-managed fields filled in is accepted by the second pass as it is |
| `SchemaValidator.ConformingAt` | src/core/src/common/SchemaValidator.ts:231-284 | A field reached by a path in a conforming record is null or of the type its path declares |
| `SchemaValidator.OnlyDatesAreNormalized` | src/core/src/common/SchemaValidator.ts:175-229 | A JSON value under a definition without dates is returned as it is, or refused |
| `SchemaValidator.OnlyDatesInObject` | src/core/src/common/SchemaValidator.ts:231-284 | The same for objects |
| `SchemaValidator.DatesAreSeconds` | src/core/src/common/SchemaValidator.ts:175-229 | A date is stored as the whole second it lies in: numbers and numeric texts are seconds, other texts and `Date` objects milliseconds; anything else is refused |
| `SchemaValidator.OneSecond` | src/core/src/common/SchemaValidator.ts:175-229 | A moment lies in one second, so a `Date` and a text of one moment are stored alike |
| `SchemaValidator.DateFieldsAreSeconds` | src/core/src/common/SchemaValidator.ts:68-99 | So every date field of a stored record is the second of what the body gave for it |
| `SchemaValidator.SystemNamesAreExempt` | src/core/src/common/SchemaValidator.ts:46-67 | Of the names nobody declared or inherits, a record may carry exactly the six the system manages, and never a version |
| `AclStatements.ExpandActions` | src/core/src/common/AclStatement.ts:91-103 | The set built holds exactly the actions some known token denotes; unknown tokens add nothing |
| `AclStatements.TokensDenote` | src/core/src/common/AclStatement.ts:13-18 | A token that is an action's name denotes it, `write` what changes stored objects, `read` what does not, `*` everything, and any other nothing |
| `AclStatements.ValuesResolve` | src/core/src/lib/AclConditionResolver.ts:85-95 | A number and a text are themselves; a reference is the context's value under its name, or nothing |
| `AclStatements.ResolvedFrom` | src/core/src/lib/AclConditionResolver.ts:64-73 | The values of a rule are exactly those its raw values resolve to; absent context keys are dropped |
| `AclStatements.CollectValues` | src/core/src/lib/AclConditionResolver.ts:64-73 | The loop over raw values keeps those that resolve, in order |
| `AclStatements.ResolveBlock` | src/core/src/lib/AclConditionResolver.ts:56-83 | One fragment per field of a block, or nothing when a field has no value left |
| `AclStatements.ResolveCondition` | src/core/src/lib/AclConditionResolver.ts:23-52 | The filter of a condition: its only fragment, or the conjunction of several, or nothing when a block fails or there is no fragment |
| `Acl.Compile` | src/core/src/lib/Acl.ts:188-208 | The lookup form has the statement's effect, expanded actions, models and wildcard, and a condition on Allow statements only |
| `Acl.Evaluate` | src/core/src/lib/Acl.ts:80-126 | The loop with its early exit gives the role's verdict: a matching Deny first, then an unconditional Allow, then the row filters combined, else neutral |
| `Acl.CompileRole` | src/core/src/lib/Acl.ts:59-62 | Every statement of a role is compiled, in order |
| `Acl.ResolveRoles` | src/core/src/lib/Acl.ts:134-184 | The loop over role names, skipping roles not loaded and leaving at the first deny, gives the grant of the roles |
| `AclMeaning.AnyOfSingles` | src/core/src/lib/Acl.ts:121-125 | Row filters of one key each, taken together, are again one key; they compile when all do and hold of a record when one does |
| `AclMeaning.FieldFilterMeans` | src/core/src/lib/AclConditionResolver.ts:97-112 | The filter of one rule is one key, compiles exactly when the rule names a filterable field with fitting values, and means the rule |
| `AclMeaning.LoweredMeans` | src/core/src/lib/AclConditionResolver.ts:23-52 | Lowering succeeds exactly when the condition can be met in the context; the result is one key, compiles when its rules do and means the condition |
| `AclMeaning.LoweredTests` | src/core/src/lib/AclConditionResolver.ts:10-17 | The lowered filter, compiled and tested, accepts exactly the records that meet the condition |
| `AclMeaning.VerdictOf` | src/core/src/lib/Acl.ts:113-125 | A role's verdict said of its statements, in any order |
| `AclMeaning.RoleFilterMeans` | src/core/src/lib/Acl.ts:117-125 | The row filter a role contributes holds of exactly the records that meet the condition of one of its conditional Allows |
| `AclMeaning.GrantOf` | src/core/src/lib/Acl.ts:171-183 | The grant of all roles said of their statements: refused on a Deny, open on an unconditional Allow, else the disjunction of the row filters, else refused |
| `AclMeaning.RowCheck` | src/api/src/lib/Acl.ts:68-89 | The row check with that disjunction passes exactly when every condition in play compiles and some one is met |
| `AclMeaning.DecidesAsPermitted` | src/api/src/lib/Acl.ts:38-89 | Main result: authorising and then checking the row lets an object through if and only if access control is off or the granted statements permit it, and fails on a filter exactly when a condition in play does not compile |
| `AclMeaning.OrderDoesNotMatter` | src/core/src/lib/Acl.ts:134-184 | Decisions depend on the set of granted statements, not on the order of roles and statements nor on repetition |
| `AclRules.GrantedStatementsAre` | src/core/src/lib/Acl.ts:134-160 | The statements in play are those of the loaded roles that the application lists for the user type |
| `AclRules.ReadersChangeNothing` | src/core/src/common/AclStatement.ts:13-18 | A user whose roles allow nothing but `read` never creates, updates or deletes, and one whose roles allow nothing but `write` never reads, whatever the conditions and the object |
| `AclRules.OwnersPass` | src/api/src/lib/Acl.ts:38-89 | Where the one statement granted lets owners take an action, a user passes with exactly that action at exactly the objects of that model that carry the user's id |
| `FilterFolding.KeyByKey` | src/core/src/common/FilterQuery.ts:76-78 | A query compiles when each of its keys does, and then admits what all of its keys admit, in memory and in the database |
| `FilterFolding.ConjoinAdmits` | src/api/src/lib/ModelParams.ts:139-141 | The conjunction of two queries compiles when both do, and admits what both admit |
| `FilterFolding.WithFieldAdmits` | src/api/src/lib/ModelParams.ts:129-133 | Setting a field in a query replaces what it said of that field and narrows the rest |
| `FilterFolding.BaseAdmits` | src/api/src/lib/ModelParams.ts:129-133 | The base filter admits exactly what the rest of the client's query admits among records with the given id and user id |
| `FilterFolding.NoFilterIff` | src/api/src/lib/ModelParams.ts:118-144 | A search goes without a filter if and only if none of filter, id, user id and constraint is there |
| `FilterFolding.DatabaseFilterAdmits` | src/api/src/lib/ModelParams.ts:118-144 | In either view the database filter compiles exactly when the client's remaining query and the constraint do, and admits exactly what both admit among records with the given id and user id |
| `FilterFolding.DatabaseFilterFinds` | src/api/src/lib/routes/Model.ts:140-148 | Main result: a search with the database filter finds exactly the records that searches with the constraint and with the client's remaining query find, among those with the given id and user id |
| `FilterFolding.ClientCannotWiden` | src/api/src/lib/ModelParams.ts:135-141 | Whatever filter, id and user id a client sends, a row found under a constraint is one a search with the constraint alone finds |
| `FilterFolding.SubscriptionFilterAccepts` | src/api/src/lib/Acl.ts:126-137 | A subscription under a constraint accepts exactly what the client's filter and the constraint both accept |
| `AclSearch.PlainIsFound` | src/database/src/lib/ElasticsearchDb.ts:954-1050 | A search with a query of single keys and numeric dates finds exactly the records the query means in the database |
| `AclSearch.LoweredIsFound` | src/core/src/lib/AclConditionResolver.ts:10-17 | The lowered filter of a condition, searched for, finds the records that meet its rules with absent fields differing from every value |
| `AclSearch.FoundIsMetOrAbsent` | src/core/src/lib/AclConditionResolver.ts:97-112 | A rule is found on a record if and only if it is met, or is an inequality on a field the record lacks |
| `AclSearch.SearchFindsWhatIsRefused` | src/api/src/lib/Acl.ts:84-88 | A concrete constraint, an inequality on an optional field: the search finds a record without the field, which the row check refuses |
| `AclSearch.PartOnAbsentFields` | src/api/src/lib/Acl.ts:84-88 | For one record: row check and search differ if and only if every rule is found while a field of an inequality rule is absent; what the check passes the search finds |
| `AclSearch.PinnedIsPresent` | src/core/src/common/SchemaValidator.ts:250-281 | In a conforming record that has the needed fields, a pinned field is present |
| `AclSearch.LeastAt` | src/core/src/common/SchemaValidator.ts:250-281 | The least conforming record of the needed fields has a leaf if and only if the leaf is pinned |
| `AclSearch.LeastIsFound` | src/core/src/lib/AclConditionResolver.ts:23-52 | When the equality rules do not contradict one another, some conforming record is found by all rules and lacks every field that is not pinned |
| `AclSearch.FoundMeansAttainable` | src/core/src/lib/AclConditionResolver.ts:23-52 | When they do, no conforming record is found |
| `AclSearch.SearchAgreesWithRowCheckIff` | src/api/src/lib/Acl.ts:63-89 | Main result: row check and search agree on every conforming record if and only if the equality rules contradict one another or every inequality rule is on a field that cannot be absent given the fields of the equality rules |
| `AclSearch.SearchFindsGranted` | src/core/src/lib/Acl.ts:171-183 | A search under the constraint of all roles finds exactly the records some conditional Allow is found by |
| `AclSearch.SearchAgreesWithGrants` | src/api/src/lib/routes/Model.ts:113-151 | Whatever the row check of all roles passes the search finds; and nothing else among conforming records when each condition in play meets the exact condition |
| `ModelSchemas.MarkAllFilterable` | src/core/src/models/Application.ts:496-508 | The walk that sets the flag in every entry gives the marked schema, at any depth of objects |
| `ModelSchemas.MarkedAt` | src/core/src/models/Application.ts:496-508 | Marking changes only which fields can be filtered on: afterwards primitives and arrays of primitives can at every path, and arrays of objects where they could before |
| `ModelSchemas.FilterableInModelIff` | src/core/src/models/Application.ts:469-487 | A filter can name the fields declared filterable of a model clients can subscribe to, every primitive and array of primitives of one they cannot, and the owner's id where there are users |
| `ModelSchemas.UniversalAreGiven` | src/core/src/common/BuiltinSchemas.ts:7-11 | Every model has an id and two times: where it does not declare these names itself, a filter can compare them, and a conforming record gives them |
| `ModelSchemas.CollectFilterableFields` | src/core/src/models/Application.ts:572-590 | The recursive walk adds to the set exactly the paths of filterable fields below an object |
| `ModelSchemas.CollectedIffFilterable` | src/core/src/models/Application.ts:557-593 | A path is collected if and only if the parser lets a filter name it |
| `ModelSchemas.ProjectKeeps` | src/worker/src/lib/WriterWorker.ts:152-156 | A document cut down to some paths has the same value at each of them |
| `ModelSchemas.DeliveredIs` | src/worker/src/lib/WriterWorker.ts:152-220 | What travels is the identity, the new version, and of the rest only the part asked for |
| `ModelSchemas.DeliveredGivesSameVerdict` | src/worker/src/lib/WriterWorker.ts:152-220 | Main result: a compiled filter gives the record delivered for an update or a delete the verdict it gives the stored record |
| `JsonPatch.Patch.constructor` | src/core/src/common/JsonPatch.ts:205-248 | A patch starts unvalidated, with as many values as paths and no field types |
| `JsonPatch.Patch.Validate` | src/core/src/common/JsonPatch.ts:262-328 | The loop accepts exactly when every path and value is acceptable, leaves the normalised values in place and appends each path's field type; a refusal leaves the patch unvalidated |
| `JsonPatch.OperandsFit` | src/core/src/common/JsonPatch.ts:76-203 | What validation of an operand returns fits the operation on its field, and what fits is returned unchanged |
| `JsonPatch.PairTakenIff` | src/core/src/common/JsonPatch.ts:76-203 | A path and value of a patch are taken if and only if the path names a declared field or `updatedAt`, not below the version, and the operation takes the value for the field's type |
| `JsonPatch.SecondPassAcceptsPatch` | src/worker/src/lib/WriterWorker.ts:132-135 | Main result: a patch the API accepted and normalised is accepted by the Writer with identical values, and all its operands fit their targets |
| `JsonPatch.ConformsForPatchesIff` | src/core/src/common/JsonPatch.ts:262-266 | A record that conforms to its model conforms to the schema patches use if and only if its `updatedAt` is a whole number of seconds |
| `CreatedRecords.MarkedConforms` | src/core/src/models/Application.ts:496-514 | Marking fields as filterable changes nothing about what conforms |
| `CreatedRecords.ConformsForModelIff` | src/core/src/models/Application.ts:469-487 | A record of the declared fields conforms to the schema derived from them if and only if it has an owner where the application has users |
| `CreatedRecords.OwnedIs` | src/api/src/lib/routes/Model.ts:194-198 | A create keeps what the body says of everything but the application and the caller, which are set or, for nobody, taken out |
| `CreatedRecords.CreatedIsPatchableIff` | src/api/src/lib/routes/Model.ts:194-198 | A created record meets the schema patches are checked against if and only if the body brought no `updatedAt` or one in whole seconds, and there was a caller where the application has users |
| `PatchScripts.WriteThenGet` | src/database/src/lib/ElasticsearchDb.ts:660 | A written field reads back as written, and fields neither above nor below it stay |
| `PatchScripts.ScriptNameGrows` | src/database/src/lib/ElasticsearchDb.ts:660 | The names a script can follow a dot with are identifiers and numbers without leading zeros, letter by letter |
| `PatchScripts.ApplyEffect` | src/database/src/lib/ElasticsearchDb.ts:658-722 | An operation that succeeds gives its field the new value the operation says, and changes no other |
| `PatchScripts.ReplacedOrCounted` | src/database/src/lib/ElasticsearchDb.ts:658-698 | `replace` leaves the operand; `incr` adds it to the number stored and `decr` takes it away, from zero where nothing is stored |
| `PatchScripts.AppendedOrPrepended` | src/database/src/lib/ElasticsearchDb.ts:663-681 | `append` puts the element or the text last and `prepend` first; all else keeps its order |
| `PatchScripts.Removed` | src/database/src/lib/ElasticsearchDb.ts:700-713 | `remove` by index takes out that position and nothing past the end, by value what equals the value; where nothing is stored nothing changes |
| `PatchScripts.RemoveValueOfSplit` | src/database/src/lib/ElasticsearchDb.ts:712 | Taking a value out leaves the others in their order and number |
| `PatchScripts.WriteConforms` | src/database/src/lib/ElasticsearchDb.ts:660 | Writing a conforming value at a path keeps a document within its schema |
| `PatchScripts.NewValueConforms` | src/database/src/lib/ElasticsearchDb.ts:664-717 | The new value of a validated operation exists and is of the field's type, from any stored value of that type, null or absent |
| `PatchScripts.ApplyConforms` | src/database/src/lib/ElasticsearchDb.ts:658-722 | A validated operation keeps a conforming document conforming, and fails only when something above its path is no object or a name in it cannot stand in a script |
| `PatchScripts.HyphenDoesNotCompile` | src/database/src/lib/ElasticsearchDb.ts:660 | A valid patch of a field with a hyphen in its name fails on every document |
| `PatchScripts.ApplyAllConforms` | src/database/src/lib/ElasticsearchDb.ts:652-733 | So does a sequence of them |
| `PatchMerge.AddPatch` | src/database/src/lib/ElasticsearchDb.ts:652-732 | The loop over a patch's paths adds its lines and parameters to the bucket, in order |
| `PatchMerge.KeysOfOneApplication` | src/database/src/lib/ElasticsearchDb.ts:632-645 | Documents of one application's models have one key if and only if they have one type and one id; so do applications and settings, which share no key with the others |
| `PatchMerge.LineIffAllowed` | src/database/src/lib/ElasticsearchDb.ts:658-730 | An operation has a script line if and only if it is one for fields of that type |
| `PatchMerge.GroupPatches` | src/database/src/lib/ElasticsearchDb.ts:628-733 | One bucket for each document patched, holding the lines of all its patches in order; refused when an app id is missing |
| `PatchMerge.CollectActions` | src/database/src/lib/ElasticsearchDb.ts:744-763 | One action for each bucket with lines; the buckets without are the failures |
| `PatchMerge.PrepareUpdate` | src/database/src/lib/ElasticsearchDb.ts:744-767 | Nothing is sent when some patched document has no line; otherwise one action per document |
| `PatchMerge.LinesAre` | src/database/src/lib/ElasticsearchDb.ts:652-732 | Line n of a merged script is the n-th step and reads parameter n, which no other line reads |
| `PatchMerge.MergedScriptAppliesInOrder` | src/database/src/lib/ElasticsearchDb.ts:752-761 | Running the merged script is applying each operation in order |
| `PatchMerge.UpdateMeans` | src/database/src/lib/ElasticsearchDb.ts:602-767 | Main result: sending the actions changes each patched document by all of its operations in order under one version bump, or not at all, and no other document |
| `PatchMerge.ValidationValidates` | src/core/src/common/JsonPatch.ts:262-328 | Validation leaves a patch with a type and a fitting operand for every path |
| `PatchMerge.StepsFit` | src/database/src/lib/ElasticsearchDb.ts:652-733 | Every operation of validated patches fits its field and has a script line |
| `PatchMerge.ValidatedUpdateConforms` | src/database/src/lib/ElasticsearchDb.ts:617-620 | A group of validated patches gives a conforming document one line per path, and leaves it unchanged or conforming with one version bump |
| `PatchMerge.ValidatedUpdateMeans` | src/database/src/lib/ElasticsearchDb.ts:617-767 | Main result: both together, for a whole store |
| `Session.ClassifiedBy` | src/redis/src/lib/models/Device.ts:435-462 | A secret is unknown, fresh, replayed or late as the fields of the session read say: its two hashes, the deadline, and the time of the last rotation |
| `Session.Store.ReadSession` | src/redis/src/lib/models/Device.ts:399-410 | A read returns the stored document |
| `Session.Store.CompareAndSet` | src/redis/src/lib/models/Device.ts:112-119 | The script swaps only where the stored hash is the one expected, and changes nothing otherwise |
| `Session.Store.ClearSession` | src/redis/src/lib/models/Device.ts:391-393 | Whatever session is stored is removed; a missing device stays missing |
| `Session.Store.Turn` | src/redis/src/lib/models/Device.ts:324-352 | One turn of the rotation loop: what it does is said of the fields of the session it read, and it is the progress the call makes on the replies it gets |
| `Session.Store.RotateSession` | src/redis/src/lib/models/Device.ts:313-357 | Main result: whatever others do between its commands, what a call does is decided by the fields of the session it read last: before the deadline its secret, or the one before it within the reuse interval, rotates once, to a session with the new secret, that hash, that time and that deadline; the one before it after the interval, or either past the deadline, clears once whatever is stored by then; any other writes nothing; and giving up means a lost swap after each of three reads |
| `Session.Store.RevokeSession` | src/redis/src/lib/models/Device.ts:369-385 | A secret the session read knows clears whatever session is stored by then; one it does not know writes nothing |
| `SessionInterleaving.SessionByHash` | src/redis/src/lib/models/Device.ts:112-119 | In a history of the protocol no two writes stored the same hash |
| `SessionInterleaving.SwapReplacesWhatWasRead` | src/redis/src/lib/models/Device.ts:329-334 | A swap that succeeds replaces the very session its call read |
| `SessionInterleaving.LostSwapMeansWrite` | src/redis/src/lib/models/Device.ts:340-342 | A swap that fails has lost to a write landed since the read |
| `SessionInterleaving.StepKeepsInv` | src/redis/src/lib/models/Device.ts:286-427 | Every command of every call keeps the protocol invariant |
| `SessionInterleaving.RunKeepsInv` | src/redis/src/lib/models/Device.ts:286-427 | So does every run |
| `SessionInterleaving.HistoryIsLine` | src/redis/src/lib/models/Device.ts:329-334 | The sessions since the last start form one line, and the stored one is its end |
| `SessionInterleaving.NoTwoSuccessors` | src/redis/src/lib/models/Device.ts:99-105 | No hash is rotated from twice |
| `SessionInterleaving.StoredSessionIsEndOfLine` | src/redis/src/lib/models/Device.ts:298-357 | Main result: in every run the stored session ends a single line with one deadline, no hash has two successors and only the last two secrets of the line match |
| `SessionInterleaving.WritesAreJustified` | src/redis/src/lib/models/Device.ts:429-462 | Main result: whatever a presenting call wrote, its secret matched the session it read, and a rotation replaced that very session |
| `SessionInterleaving.RefreshAfterRotation` | src/redis/src/lib/models/Device.ts:435-462 | Main result: in every run, a secret that a rotation has just replaced still refreshes for as long as the reuse interval since that rotation lasts and ends the session after it; the new secret refreshes; past the deadline either ends the session; any other does nothing |
| `SessionInterleaving.CallKeepsArguments` | src/redis/src/lib/models/Device.ts:313-393 | Whatever happens afterwards, a call goes on with the secret, the times and the interval it was begun with |
| `SessionInterleaving.RefreshLands` | src/redis/src/lib/models/Device.ts:324-352 | When nothing lands in between, the refresh then makes exactly that one write, or none |
| `SessionInterleaving.LosersWroteNothing` | src/redis/src/lib/models/Device.ts:354-356 | Main result: a call that ends refused or beaten wrote nothing, and one beaten three times saw three writes of other calls land during it |
| `SessionInterleaving.CommandResumes` | src/redis/src/lib/models/Device.ts:313-385 | A command of the state machine goes on as the store methods do with the same reply and leaves the document as their commands do |
| `SessionInterleaving.SameLineIffNoStart` | src/redis/src/lib/models/Device.ts:286-296 | Of two moments with a session stored, the session of the first is in the line of the second if and only if no session was started in between |
| `SessionInterleaving.EndingIsOfMatchedLineIff` | src/redis/src/lib/models/Device.ts:387-393 | Main result: in every run, a log-out, replay or expiry ends a session of the line its secret matched if and only if no session was started between its read and its clear |
| `SessionInterleaving.UnknownSecretCanEndASession` | src/redis/src/lib/models/Device.ts:369-385 | A concrete run in which a log-out ends a session that does not know its secret |
| `SubscriptionKeys.GetKeyString` | src/redis/src/lib/models/Subscription.ts:42-59 | The key built by appending is the prefix and the parts joined by colons |
| `SubscriptionKeys.ParseKey` | src/redis/src/lib/models/Subscription.ts:61-94 | The loop over the parts reads the ids as the format says |
| `SubscriptionKeys.BuildScopeDescriptor` | src/redis/src/lib/models/Subscription.ts:282-294 | The descriptor put together from the ids given, joined by bars, or the star |
| `SubscriptionKeys.FromKeyInvertsGetKeyIff` | src/redis/src/lib/models/Subscription.ts:42-94 | Main result: for every channel, parsing its printed key gives the channel back if and only if it is printable: no identifier is empty or holds a colon, there are not both ids, and the model id is neither `user` nor `filter` |
| `SubscriptionKeys.ParsedHaveNoColon` | src/redis/src/lib/models/Subscription.ts:61-94 | What is read off any key holds no colon, and its model id is no reserved word |
| `SubscriptionKeys.KeysAreInjective` | src/redis/src/lib/models/Subscription.ts:42-59 | Different printable channels have different keys |
| `SubscriptionKeys.PartitionKeysAreInjective` | src/redis/src/lib/models/Subscription.ts:300-318 | Two partitions of two channels have the same key if and only if the channels have the same key and the partitions are the same |
| `SubscriptionKeys.FilteredKey` | src/redis/src/lib/models/Subscription.ts:342-355 | The key of a filtered channel is its registry's and the filter id after it |
| `SubscriptionKeys.BothIdsShareAKey` | src/redis/src/lib/models/Subscription.ts:49-52 | A channel with both ids has the key of the one without the user id |
| `SubscriptionKeys.UserKeyIsAModelKey` | src/redis/src/lib/models/Subscription.ts:45-52 | Every user channel has the key of the channel of the model id `user:` followed by the user id |
| `SubscriptionKeys.ColonIdReadsAsAnother` | src/redis/src/lib/models/Subscription.ts:77-91 | A model id with a colon is read back as its last part, whose key is another one |
| `SubscriptionKeys.DescriptorsAreInjective` | src/redis/src/lib/models/Subscription.ts:282-294 | Scopes of channels with at most one id have the same descriptor if and only if they are the same, whatever characters the ids hold |
| `SubscriptionKeys.BothIdsShareADescriptor` | src/redis/src/lib/models/Subscription.ts:282-294 | The descriptor of an event with both ids is also that of a model id with a bar |
| `SubscriptionIndex.Index.constructor` | src/redis/src/lib/models/Subscription.ts:97-131 | An empty index holds nothing |
| `SubscriptionIndex.Index.AddMember` | src/redis/src/lib/models/Subscription.ts:107 | A device set gains the device, and says whether it was new |
| `SubscriptionIndex.Index.RemoveMember` | src/redis/src/lib/models/Subscription.ts:137 | A device set loses the device, and the last one takes the set with it |
| `SubscriptionIndex.Index.AddPartition` | src/redis/src/lib/models/Subscription.ts:114 | The partition index lists the partition of the new device |
| `SubscriptionIndex.Index.DropPartition` | src/redis/src/lib/models/Subscription.ts:147-155 | An emptied partition leaves the index, and the key's last is recognised |
| `SubscriptionIndex.Index.AddDevice` | src/redis/src/lib/models/Subscription.ts:97-131 | Whatever the channel: a device already in one of the key's sets changes nothing; otherwise it is a member of the right one, its partition is listed, its scope is counted once more and the filter is stored; sets and partition index go on agreeing |
| `SubscriptionIndex.Index.RemoveDevice` | src/redis/src/lib/models/Subscription.ts:133-170 | Whatever the channel: a device that is in none of the key's sets changes nothing; otherwise it leaves, an emptied set with it, its scope is counted once less and deleted at zero, and the key's last takes a stored filter with it; the answer says which |
| `SubscriptionIndex.Index.GetAllDevices` | src/redis/src/lib/models/Subscription.ts:172-198 | Reading only the partitions listed finds every device under the channel's key, and no other |
| `SubscriptionIndex.SetsAreDetermined` | src/redis/src/lib/models/Subscription.ts:97-170 | Two indexes with the same members have the same device sets and partitions in use, whatever the order of events |
| `SubscriptionRelation.AtScopeIsSameIds` | src/redis/src/lib/models/Subscription.ts:269-298 | A scope counter counts the subscriptions of one app, model and pair of ids, and no others |
| `SubscriptionRelation.ScopeAfterAdd` | src/redis/src/lib/models/Subscription.ts:116-123 | A new subscription adds one at its own scope and nothing elsewhere |
| `SubscriptionRelation.ScopeAfterRemove` | src/redis/src/lib/models/Subscription.ts:157-163 | A subscription taken away takes one from its own scope and nothing elsewhere |
| `SubscriptionRelation.SlotFreed` | src/redis/src/lib/models/Subscription.ts:152-154 | A stored filter has a subscription exactly while some device is left under the key of its channel |
| `SubscriptionRelation.AddKeepsAgrees` | src/redis/src/lib/models/Subscription.ts:97-131 | An add of a channel whose key no other subscribed channel has keeps the index agreeing with the plain set of subscriptions, now with this one |
| `SubscriptionRelation.RemoveKeepsAgrees` | src/redis/src/lib/models/Subscription.ts:133-170 | So does a removal |
| `SubscriptionRelation.RunOperations` | src/redis/src/lib/models/Subscription.ts:97-170 | The index under any operations in any order |
| `SubscriptionRelation.RunsAgreeIff` | src/redis/src/lib/models/Subscription.ts:42-170 | Main result: for any set of requests, the index agrees with the plain set of subscriptions after every run of adds and removes of them if and only if no two of them ask for different channels with one key |
| `SubscriptionRelation.SharedKeyDisagrees` | src/redis/src/lib/models/Subscription.ts:97-170 | Subscribing to one channel and unsubscribing from another with its key leaves the first without its device |
| `SubscriptionRelation.PrintableAreApart` | src/redis/src/lib/models/Subscription.ts:42-59 | No two requests for printable channels do |
| `SubscriptionRelation.ContentsAreDetermined` | src/redis/src/lib/models/Subscription.ts:97-170 | Two indexes of the same subscriptions hold the same members, counters and filter ids |
| `DeviceLookup.AddKey` | src/worker/src/lib/TransportManagerWorker.ts:432-438 | A key is added to each device of a set, with a new entry where there is none |
| `DeviceLookup.AddSubscribers` | src/worker/src/lib/TransportManagerWorker.ts:427-438 | The devices under a channel's key gain it |
| `DeviceLookup.PassingFilters` | src/worker/src/lib/TransportManagerWorker.ts:455-479 | Of the stored filters of a pattern, exactly those that compile and accept some target pass |
| `DeviceLookup.AddFiltered` | src/worker/src/lib/TransportManagerWorker.ts:480-490 | The devices under the keys of several filters gain them |
| `DeviceLookup.VisitPattern` | src/worker/src/lib/TransportManagerWorker.ts:420-506 | A pattern whose scope has no counter is skipped; another contributes its own key and those of its filters that pass |
| `DeviceLookup.GetDevices` | src/worker/src/lib/TransportManagerWorker.ts:380-518 | Whatever the index holds: each device is mapped to exactly the event's keys it is listed under, and none to none |
| `DeviceLookup.PatternsAre` | src/redis/src/lib/models/Subscription.ts:200-220 | The patterns generated are exactly the unfiltered channels that cover the event |
| `DeviceLookup.ActiveIsPrintable` | src/worker/src/lib/TransportManagerWorker.ts:421-425 | Where all subscriptions are printable a pattern with a counter is one that some device subscribes to, with or without a filter: the pattern with both ids never has one |
| `DeviceLookup.FoundIsHeard` | src/worker/src/lib/TransportManagerWorker.ts:420-506 | A subscription listed under a key of a pattern that is looked up hears the event |
| `DeviceLookup.HeardIsFound` | src/worker/src/lib/TransportManagerWorker.ts:420-506 | One that hears the event is listed under such a key: skipping patterns loses nobody |
| `DeviceLookup.LookupIsScan` | src/worker/src/lib/TransportManagerWorker.ts:380-518 | Main result: where all subscriptions are printable, the keys a device is found under are those of the channels a full scan of all subscriptions finds for it |
| `Texts.BeforeIff` | src/worker/src/lib/TransportManagerWorker.ts:346 | The order of the listing is that of dictionaries: the first character that differs decides, and a text comes before its continuations |
| `Texts.Sort` | src/worker/src/lib/TransportManagerWorker.ts:346 | Sorting lists a set once each, in order |
| `Texts.SortedIsUnique` | src/worker/src/lib/TransportManagerWorker.ts:343-347 | A set has one sorted listing |
| `Texts.SplitJoin` | src/worker/src/lib/TransportManagerWorker.ts:344-347 | Splitting at the separator undoes joining, for words without it |
| `FanOut.PrintedKeys` | src/worker/src/lib/TransportManagerWorker.ts:336-338 | Different sets of printable channels have different sets of keys, whatever their ids hold |
| `FanOut.KeyIsPrinted` | src/worker/src/lib/TransportManagerWorker.ts:343-347 | No line inside the key of a printable channel begins as keys do, even where an id has a newline |
| `FanOut.JoinIsInjective` | src/worker/src/lib/TransportManagerWorker.ts:346-347 | Listings of printed keys joined by newlines are equal only when the listings are |
| `FanOut.SignatureIsInjective` | src/worker/src/lib/TransportManagerWorker.ts:343-347 | Two sorted listings have the same signature if and only if they list the same keys |
| `FanOut.FileDevice` | src/worker/src/lib/TransportManagerWorker.ts:341-363 | Filing a device in an existing or a new group keeps every group right |
| `FanOut.GroupDevices` | src/worker/src/lib/TransportManagerWorker.ts:336-368 | Every device found is filed and every group consists of devices found |
| `FanOut.RecipientsAreConserved` | src/worker/src/lib/TransportManagerWorker.ts:323-335 | Main result: a device is in a group of its transport if and only if it was found and the group has exactly its keys |
| `FanOut.GroupsDiffer` | src/worker/src/lib/TransportManagerWorker.ts:356-362 | No two groups of a transport share a key set |
| `FanOut.MessageCount` | src/worker/src/lib/TransportManagerWorker.ts:323-335 | Main result: a transport gets as many messages as there are distinct key sets among its devices |
| `DeviceSubscriptions.DeviceRecord.constructor` | src/redis/src/lib/models/Device.ts:486-540 | A new device has no transport and no subscriptions |
| `DeviceSubscriptions.DeviceRecord.HasSubscription` | src/redis/src/lib/models/Device.ts:542-551 | The look through the loaded list finds a channel exactly when some listed key, parsed and printed again, is its key |
| `DeviceSubscriptions.DeviceRecord.AddSubscription` | src/redis/src/lib/models/Device.ts:507-540 | Whatever the channel: refused without a transport; nothing changes when it is found in the list; otherwise its key is listed and the device added to the index |
| `DeviceSubscriptions.DeviceRecord.RemoveAllSubscriptions` | src/redis/src/lib/models/Device.ts:486-505 | Whatever is listed: each key is parsed and that channel removed from the index, in order, under the device's transport; the list is emptied in any case |
| `DeviceSubscriptions.SubscribeThenRemoveAll` | src/redis/src/lib/models/Device.ts:486-540 | Any number of subscriptions followed by the removal of all does what the two operations do one after the other |
| `DeviceSubscriptions.ColonIdBlocksAnother` | src/redis/src/lib/models/Device.ts:187-203 | After a subscription to the model id `x:y` one to `y` is taken for listed, and the device is not added for it |
| `SubscriptionRemoval.ReprintedOnce` | src/redis/src/lib/models/Subscription.ts:42-94 | A key parsed and printed is parsed and printed to itself from then on; one that is so at once is of a printable channel |
| `SubscriptionRemoval.UnprintableScope` | src/redis/src/lib/models/Subscription.ts:282-298 | The counter of a channel that is not printable is not that of a printable one |
| `SubscriptionRemoval.AfterAdds` | src/redis/src/lib/models/Device.ts:507-540 | When no listed key reads back as another, the adds list and index exactly the keys of the requests taken, each once |
| `SubscriptionRemoval.CountsAfterAdds` | src/redis/src/lib/models/Subscription.ts:116-123 | Then each counter has gone up by the number of requests taken at its scope |
| `SubscriptionRemoval.UnreadStays` | src/redis/src/lib/models/Device.ts:491-493 | A member under a key that no listed one reads back as is not removed |
| `SubscriptionRemoval.AfterFixedRemovals` | src/redis/src/lib/models/Device.ts:486-505 | Removing keys that read back as themselves removes exactly their members, and counts each at the scope it is read back with |
| `SubscriptionRemoval.RestoredAreFixed` | src/redis/src/lib/models/Device.ts:486-505 | When all members are gone again, every listed key reads back as itself |
| `SubscriptionRemoval.RestoredIff` | src/redis/src/lib/models/Device.ts:486-540 | Main result: for all requests, a device's subscribing and the removal of all of its subscriptions leave the members and the counters as they were if and only if every channel that was taken is printable |
| `SubscriptionRemoval.SubscribeAndLeave` | src/redis/src/lib/models/Device.ts:486-540 | Main result: the same of the stored device sets, partition index and counters; then the ids in the filter registry are as they were too, where it was in step with the sets |
| `SubscriptionRemoval.FiltersAreRestored` | src/redis/src/lib/models/Subscription.ts:125-130 | The filter ids stored afterwards are those stored before |
| `SubscriptionRemoval.AgreeingIsInStep` | src/redis/src/lib/models/Subscription.ts:97-170 | The filter registry is in step in every index that agrees with printable subscriptions |
| `ChangeEvents.PassesIffStoredMeets` | src/worker/src/lib/TransportManagerWorker.ts:455-479 | A stored filter passes on the delivered records if and only if a stored record meets it |
| `ChangeEvents.FindRecipients` | src/worker/src/lib/TransportManagerWorker.ts:380-518 | Main result: of an update or a delete a device hears under exactly the keys of the channels it subscribes to that cover the object and have no filter or one a stored record meets |
| `ChangeEvents.BatchRecipients` | src/worker/src/lib/TransportManagerWorker.ts:184-275 | Main result: a device that hears of a change is in exactly one group of its transport, and that group names the keys of the channels it hears it on and no other; a device that does not is in no group |
| `MessageDelivery.ProcessDelivery` | src/message_queue/src/lib/MessageQueueAdapter.ts:586-649 | The loop settles at the first attempt that calls for a settlement, with that one, and tries again after each before it; a payload that cannot be decoded is dead-lettered without a run |
| `MessageDelivery.RetriedRuns` | src/message_queue/src/lib/MessageQueueAdapter.ts:626-643 | Runs that called for another all waited their turn, and no more of them counted than there are retry delays |
| `MessageDelivery.SettlementMeans` | src/message_queue/src/lib/MessageQueueAdapter.ts:573-585 | Main result: acked exactly when the last run resolved; dead-lettered exactly when it failed for good, or with all services ready once more than there are delays; requeued in every other decided case |
| `MessageDelivery.OutagesDoNotCount` | src/message_queue/src/lib/MessageQueueAdapter.ts:626-631 | Failures during outages can be inserted anywhere without changing what counts |
| `MessageDelivery.Delivery.HandleDelivery` | src/message_queue/src/lib/MessageQueueAdapter.ts:537-571 | A delivery is settled at most once, never on a lost connection, and goes straight back while consumption is stopping |
| `ConsumptionControl.Worker.PauseConsuming` | src/message_queue/src/lib/MessageQueueAdapter.ts:439-449 | Pausing cancels every open consumer and keeps them closed |
| `ConsumptionControl.Worker.ResumeConsuming` | src/message_queue/src/lib/MessageQueueAdapter.ts:458-470 | Resuming reopens one consumer per queue when connected, and does nothing after a stop |
| `ConsumptionControl.Worker.StopConsuming` | src/message_queue/src/lib/MessageQueueAdapter.ts:401-430 | Stopping closes every consumer and sets the flag for good |
| `ConsumptionControl.Worker.Register` | src/message_queue/src/lib/MessageQueueAdapter.ts:370-390 | A registered queue gets its consumer at once when connected and not paused |
| `ConsumptionControl.Worker.MarkServiceUp` | src/worker/src/lib/BaseWorker.ts:258-283 | The last service to come back resumes consumption and releases start-up |
| `ConsumptionControl.Worker.MarkServiceDown` | src/worker/src/lib/BaseWorker.ts:285-312 | The first service to go pauses consumption, unless the worker is closing |
| `ConsumptionControl.Worker.ServiceUp` | src/worker/src/lib/BaseWorker.ts:232-237 | The worker invariant holds after the database or Redis connects |
| `ConsumptionControl.Worker.ServiceDown` | src/worker/src/lib/BaseWorker.ts:232-237 | And after one of them disconnects |
| `ConsumptionControl.Worker.Connect` | src/message_queue/src/lib/MessageQueueAdapter.ts:222-234 | A wanted connection that is missing is tried at once, once |
| `ConsumptionControl.Worker.StartRetryLoop` | src/message_queue/src/lib/MessageQueueAdapter.ts:706-713 | The retry loop tries at once and arms the timer, unless it is armed |
| `ConsumptionControl.Worker.BeginTry` | src/message_queue/src/lib/MessageQueueAdapter.ts:722-733 | A try is in flight afterwards; it attempts to connect once if none was, and not at all otherwise |
| `ConsumptionControl.Worker.TimerFires` | src/message_queue/src/lib/MessageQueueAdapter.ts:712 | A tick of the timer does the same: two attempts never overlap |
| `ConsumptionControl.Worker.GoLive` | src/message_queue/src/lib/MessageQueueAdapter.ts:746-768 | A live connection restores the consumers unless paused and then reports the service up |
| `ConsumptionControl.Worker.FinishTry` | src/message_queue/src/lib/MessageQueueAdapter.ts:735-807 | A try ends connected exactly when it succeeded and is still wanted; a fatal error gives up, any other keeps retrying |
| `ConsumptionControl.Worker.ConnectionLost` | src/message_queue/src/lib/MessageQueueAdapter.ts:269-279 | A lost connection has no consumers, counts as a service down and is retried while wanted |
| `ConsumptionControl.Worker.BeginClose` | src/worker/src/lib/BaseWorker.ts:378-379 | A worker that begins to close keeps its invariant |
| `ConsumptionControl.Worker.Disconnect` | src/message_queue/src/lib/MessageQueueAdapter.ts:242-259 | A disconnected worker wants no connection and has none |
| `ConsumptionControl.Worker.ConsumptionFollowsServices` | src/worker/src/lib/BaseWorker.ts:249-256 | One consumer per registered queue when connected and not paused and none otherwise; none while a service is down; all of them when every service is up; none after a stop; a wanted connection is being retried, with at most one attempt unanswered |
| `ConsumptionControl.Happen` | src/message_queue/src/lib/MessageQueueAdapter.ts:704-808 | Any event keeps the invariant, the stop flag and the registered queues, and has its own effect: a service counted or not, a queue registered, a connection wanted, live or lost |
| `ConsumptionControl.Run` | src/worker/src/lib/BaseWorker.ts:258-312 | Main result: the same after any events in any order while the worker is not closing |
| `DeviceLinking.Registration.CreateDevice` | src/api/src/lib/DeviceRegistration.ts:80-98 | The account is written first, stamped with the time before that write was sent, and the device after it; nothing is saved when the account is gone |
| `DeviceLinking.RemoveOfSplit` | src/api/src/lib/DeviceRegistration.ts:228-262 | Taking ids off by value leaves the others in their order and number |
| `DeviceLinking.Registration.UnlinkMissing` | src/api/src/lib/DeviceRegistration.ts:161-184 | Nothing is taken off an account whose stamp is of the last minute; otherwise, by value, only the ids that name no device, under a stamp taken after asking and before the write |
| `DeviceLinking.CreationIsTheOperation` | src/api/src/lib/DeviceRegistration.ts:80-98 | The interleaved steps of a creation that nothing interrupts do what the operation does, however long the write and the save are under way within the limits |
| `DeviceLinking.CleanupIsTheOperation` | src/api/src/lib/DeviceRegistration.ts:161-184 | So do those of a clean-up |
| `DeviceLinking.NeverStaysNever` | src/api/src/lib/DeviceRegistration.ts:154-160 | A device no request can save any more never comes to exist |
| `DeviceLinking.GuardSettles` | src/api/src/lib/DeviceRegistration.ts:34-40 | Once the minute has passed, every id read from the account names a saved device or one that never will be, when delay and window together are below a minute |
| `DeviceLinking.StepKeepsInv` | src/api/src/lib/DeviceRegistration.ts:80-184 | Then every step of every request keeps the invariant: crashes, writes that land after their stamps, and other writers of the account included |
| `DeviceLinking.RunKeepsInv` | src/api/src/lib/DeviceRegistration.ts:80-184 | So does every run |
| `DeviceLinking.SlowLinkLoses` | src/api/src/lib/DeviceRegistration.ts:244-261 | When they are not, a run in which a link lands late under its stamp, a clean-up takes the device off the account, and then it is saved |
| `DeviceLinking.SavedDevicesAreListedIff` | src/api/src/lib/DeviceRegistration.ts:45-48 | Main result: for every bound on the delay of a write after its stamp and on the wait of a save after its link, every saved device is listed on its account in every run if and only if the two together are below sixty seconds |
| `DeviceLinking.UnlinkedNeverExistsIff` | src/api/src/lib/DeviceRegistration.ts:154-184 | Main result: under the same condition, and no other, an id a clean-up takes off names no device then, nor in any continuation |

## Left out

Of the parts modelled:

- FilterQuery.ParseQuery: a path is the sequence of its names; splitting a dotted path and names containing
  dots are not modelled, nor are members of a logical list that are no objects.
- EsMeaning.LeafAgreement: numbers are reals, without rounding, NaN, infinities or the ranges of the
  index's number types.
- EsAgreement.SearchAgreesWithTest: type coercion other than that of dates and the flattening of arrays of
  objects in the index are not modelled; strings are keywords, as they are mapped. It is stated for
  filters of known operators that give dates as numbers, because the others are refused or read
  differently (`AcceptedIffSearchable`, `DateStringIsFoundNotTested`).
- SchemaValidator.UndeclaredIsRefusedIff: inherited names are those of functions; `__proto__`, and names
  only a `Date` given as an object inherits, are not modelled.
- SchemaValidator.NormalizeFields: which violation is reported first, and its message, are not modelled;
  an input is refused or it is not.
- Acl.ResolveRoles: the validator of roles is not modelled; statements are taken as validated.
- AclMeaning.DecidesAsPermitted: the object checked is the one given; reading it from the field cache
  (`loadObjectAttributes`) is not modelled.
- ModelSchemas.MarkAllFilterable: the clone the original mutates in place is a value here, so aliasing of
  nested definitions is not modelled.
- JsonPatch.Patch.Validate: what a refused patch leaves of its partly normalised values is not stated.
- PatchMerge.KeysOfOneApplication: the index name of an application's model is the two names joined by a
  hyphen; names of different applications that hold hyphens are not compared.
- PatchMerge.GroupPatches: the buckets are values in a map, not shared objects.
- PatchMerge.UpdateMeans: retries on version conflicts, the answer map of an update and failures of single
  bulk items are not modelled; actions take effect one after the other.
- Session.Store.RotateSession: commands that fail for reasons of the connection are not modelled.
- SessionInterleaving.StoredSessionIsEndOfLine: distinct secrets have distinct hashes, new secrets are
  fresh, and the device document is not deleted.
- PatchScripts.ApplyConforms: the overflow of integers by `incr` and `decr`, and names the script language
  gives a meaning of its own, are not modelled.
- SubscriptionIndex.Index.AddDevice: one add or remove is one atomic step, although the original sends several
  commands. A device set is kept under its channel's key and its partition, which
  `PartitionKeysAreInjective` justifies for every channel.
- SubscriptionRelation.RunsAgreeIff: requests give at most one of the two ids, as `NexxusApiModelParams`
  checks, and digests are neither empty nor hold a colon.
- SubscriptionRemoval.RestoredIff: the application's id holds no colon; it is a random UUID unless given.
- DeviceLookup.LookupIsScan: stated for printable subscriptions, because others can share a key
  (`UserKeyIsAModelKey`); what the lookup finds among those is `GetDevices`, which has no condition.
- FanOut.PrintedKeys: the names of the application and of its models hold no newline.
- ChangeEvents.BatchRecipients: the same, and printable subscriptions; updates carry one record for each
  patch, of one object.
- DeviceLookup.GetDevices: the index does not change during one lookup; an unknown application, which has
  no recipients, is not modelled.
- FanOut.GroupDevices: the order of devices within a group and of the groups is not stated.
- DeviceSubscriptions.DeviceRecord.AddSubscription: each request loads the device anew, so two objects of one
  device at a time are not modelled, nor are `removeSubscription` and `save`.
- MessageDelivery.ProcessDelivery: the length of waits is not modelled, only whether they ran their course.
- ConsumptionControl.Run: opening and cancelling consumers succeed in one step and each queue is
  registered once; disconnecting follows the RabbitMQ adapter, whose close event marks the service down;
  waiting for messages in flight is not modelled.
- DeviceLinking.SavedDevicesAreListedIff: the clock is whole seconds, and one clock; accounts and devices are
  never deleted; a write of the account and its stamp land together, as `updateItems` makes them.

Of the repository:

- Express routes, Passport, bcrypt and JWT handling, and the refresh-token format: library plumbing.
- Websocket connection bookkeeping: driven by socket events, without a simple invariant.
- Configuration, logging, the management server, the Hub client, bootstrappers, compression and package
  resolution: input and output.
- Index naming, pagination and sorting of searches, and the mapping of results and status codes: easy
  members only.
- The field cache the Writer keeps for access control.
