# Atlassian.Jira client core in Dafny

This project models the part of the Atlassian.Jira .NET SDK that runs on the client side. It
leaves out the transport: it does not send HTTP, SOAP or JSON over the wire. What it models:

- **Token session** (`JiraClient`). The `Jira` class holds optional credentials, a cached
  token and a count of login calls. `WithToken` runs a remote operation with a token:
  - an anonymous client passes the empty token;
  - a client with credentials logs in when it has no token and reuses the cached token after that;
  - an authentication fault clears the token, logs in once more and retries once;
  - any other fault propagates unchanged.

  The method is proved equal to the function `WithTokenRun` of the session before the call.
  Lemmas about that function state what the tests rely on. `GetIssuesFromFilter`'s lookup of a
  favourite filter by name is modelled alongside.
- **Issues** (`Issues`).
  - The wire form of an issue (`RemoteIssue`) and its local form (`LocalIssue`, and the class `Issue`).
  - The local form keeps the values the issue was loaded with beside its current values.
  - `GetUpdatedFields` is a diff driven by the field schema: one descriptor per field whose value
    changed. A changed due date is rendered as `10/Oct/11`.
  - `ToLocal` and `ToRemote` convert between the two forms.
  - Reading and uploading attachments fail on an issue that was never created.
- **Custom field values** (`CustomFields`). The class `CustomFieldValueCollection` resolves a
  field name to a field id. It looks the name up, ignoring case, among the fields the server
  offers in the current context: the edit screen, or one workflow action's screen. It appends
  values under the resolved id, looks values up by name and projects them to the wire form.
- **Project components** (`ProjectComponents`). These are the resources for listing, creating
  and deleting one project's components. The classes `JiraCache` and
  `ProjectComponentsEditableResource` keep the client's cache of each project's components by id:
  - listing adds the project's entry only when it is missing;
  - creating adds the new component only when its id is missing;
  - deleting removes the id only when it is present.
- **User JSON** (`UserJson`). `JiraUserJsonConverter` reads a user record. It writes a user as
  a single-member object. The user-privacy flag selects `accountId` or `name`, both as the key
  written and as the field the identifier is read from. Reading dereferences the user and its
  avatar dictionary without a null check. The one-member object the converter writes has no
  avatar dictionary, so it does not read back; it does once an avatar dictionary is added.
- **User resources** (`UserService`). These are the resource strings of the user service's
  create, get, delete, search and "myself" calls. Each one is proved to parse back into its
  path and its query parameters.

Supporting modules:

- `Wrappers` holds `Option` and `Result`.
- `Text` holds decimal and boolean text, comparison ignoring case, and a first-match search.
- `Query` renders and parses query strings, with a round-trip lemma.
- `Json` is a small JSON value type whose objects are ordered member lists.

Parameters stand for the parts of the system that are outside this model:

- URI escaping is a parameter `escape: string -> string`.
- The ordinal case fold is a parameter `fold: char -> char`.
- The server's answers are parameters: login replies indexed by the number of logins so far,
  the field lists, the component lists, and the created component.
- Whether a fault is an authentication fault is the predicate parameter `isAuthFault`.

## Model

| member | source | states |
|---|---|---|
| JiraClient.Jira.constructor | Atlassian.Jira.Test/JiraTests.cs:81-89 | a new client holds no token and has made no login call |
| JiraClient.Jira.Login | Atlassian.Jira.Test/JiraTests.cs:81-101 | a login consumes the next reply and is counted; an issued token is cached, and a refusal is a login error that keeps the cached token |
| JiraClient.Jira.WithToken | Atlassian.Jira.Test/JiraTests.cs:50-134 | the outcome, the tokens the operation received and the new session are exactly `WithTokenRun` of the old session |
| JiraClient.AnonymousNeverLogsIn | Atlassian.Jira.Test/JiraTests.cs:50-75 | without credentials the operation gets the empty token once, its outcome (fault or not) is the call's, and the session is unchanged |
| JiraClient.FirstCallLogsIn | Atlassian.Jira.Test/JiraTests.cs:81-89 | with no cached token the client logs in once and passes the issued token, which it then caches |
| JiraClient.CachedTokenReused | Atlassian.Jira.Test/JiraTests.cs:92-101 | a cached token is passed as is, with no login |
| JiraClient.SecondCallReusesToken | Atlassian.Jira.Test/JiraTests.cs:92-101 | two calls in a row: the same token both times and one login in all |
| JiraClient.AuthFaultRetriesOnce | Atlassian.Jira.Test/JiraTests.cs:104-118 | an authentication fault on the cached token gives one more login and one retry with the new token, whose outcome is the call's |
| JiraClient.NewTokenAfterAuthFault | Atlassian.Jira.Test/JiraTests.cs:104-118 | logins yield "token1" then "token2"; an operation failing on "token1" is rerun with "token2" and succeeds, after two logins in all |
| JiraClient.OtherFaultPropagates | Atlassian.Jira.Test/JiraTests.cs:121-134 | any other fault propagates unchanged, with no login and the token kept |
| JiraClient.RetryIsBounded | Atlassian.Jira.Test/JiraTests.cs:50-134 | at most two runs and two logins per call; a second run only after an authentication fault; unless a login failed, the call ends as its last run did |
| JiraClient.IssuesFromFilterQuery | Atlassian.Jira.Test/JiraTests.cs:17-44 | fails exactly when no favourite filter has the name; otherwise queries the first such filter's id with the given offset and limit |
| JiraClient.FilterQueryDefaults | Atlassian.Jira.Test/JiraTests.cs:25-44 | offset and limit default to 0 and 20; filter "thefilter" with id "123" is found; an empty list of favourites fails |
| Issues.Issue.constructor | Atlassian.Jira.Test/IssueTest.cs:14-19 | a new issue has no key, no timestamps and nothing loaded or set |
| Issues.NewIssueDefaults | Atlassian.Jira.Test/IssueTest.cs:14-19 | a new issue has no due date and nothing to update; converted with only project, type and summary set, it has no priority, key or resolution |
| Issues.Issue.FromRemote | Atlassian.Jira.Test/IssueTest.cs:22-57 | an issue built from a remote issue is `ToLocal` of it |
| Issues.ToLocal | Atlassian.Jira.Test/IssueTest.cs:22-57 | the loaded values are the current values; key, created, updated and due date are copied; priority and resolution wrap the remote values, and stay null when those are null |
| Issues.ToRemote | Atlassian.Jira.Test/IssueTest.cs:60-97 | the key, priority and resolution are the issue's; created, updated and due date are not sent |
| Issues.ToLocalToRemote | Atlassian.Jira.Test/IssueTest.cs:77-97 | converting to local and back gives the remote issue without its created, updated and due date |
| Issues.Diff | Atlassian.Jira.Test/IssueTest.cs:100-194 | one descriptor for each schema position whose values differ, and no other: each carries the field id and the new value; the diff is empty exactly when nothing differs |
| Issues.DiffOfOneChange | Atlassian.Jira.Test/IssueTest.cs:107-114 | values that differ at one position only give exactly that field's change |
| Issues.Issue.GetUpdatedFields | Atlassian.Jira.Test/IssueTest.cs:100-194 | the update is the diff between the loaded and current values, and it is empty exactly when they are equal |
| Issues.UpdatedFieldsEmptyIff | Atlassian.Jira.Test/IssueTest.cs:100-105 | an update is empty exactly when the current fields equal the loaded ones |
| Issues.LoadedIssueUnchanged | Atlassian.Jira.Test/IssueTest.cs:184-194 | a freshly loaded issue, due date included, has nothing to update |
| Issues.UpdatedFieldsOneText | Atlassian.Jira.Test/IssueTest.cs:107-114 | setting one string field to a new value gives exactly one change with that field's id and value |
| Issues.AllTextFieldsChanged | Atlassian.Jira.Test/IssueTest.cs:116-130 | setting all eight string fields of a new issue gives eight changes |
| Issues.SameValuesUnchanged | Atlassian.Jira.Test/IssueTest.cs:132-162 | loaded summary and priority set again to the same value, and null status and resolution set to null, change nothing |
| Issues.UpdatedFieldsPriority | Atlassian.Jira.Test/IssueTest.cs:164-172 | setting a different priority gives exactly one "priority" change carrying its value |
| Issues.UpdatedFieldsDueDate | Atlassian.Jira.Test/IssueTest.cs:174-182 | setting a different due date gives exactly one "duedate" change carrying the formatted date |
| Issues.FormatDate | Atlassian.Jira.Test/IssueTest.cs:174-182 | day, month abbreviation and two-digit year; pinned by `FormatDateExample` and `FormatDateInjective` |
| Issues.UpdatedFields | Atlassian.Jira.Test/IssueTest.cs:100-194 | the schema diff of the loaded against the current fields; its meaning is stated by `UpdatedFieldsEmptyIff` and the single-field lemmas |
| Issues.FormatDateExample | Atlassian.Jira.Test/IssueTest.cs:174-182 | 10 October 2011 renders as "10/Oct/11" |
| Issues.FormatDateInjective | Atlassian.Jira.Test/IssueTest.cs:174-194 | within one century, different dates render differently, so a change of date is never lost in the rendering |
| Issues.ValuesInjective | Atlassian.Jira.Test/IssueTest.cs:132-162 | fields with equal schema values are equal: priorities and resolutions compare by their value |
| Issues.WithText | Atlassian.Jira.Test/IssueTest.cs:116-130 | setting one string field changes that field and no other |
| Issues.Issue.SetText | Atlassian.Jira.Test/IssueTest.cs:107-130 | a string setter changes only that current field |
| Issues.Issue.SetPriority | Atlassian.Jira.Test/IssueTest.cs:148-172 | the priority setter changes only the current priority |
| Issues.Issue.SetResolution | Atlassian.Jira.Test/IssueTest.cs:148-162 | the resolution setter changes only the current resolution |
| Issues.Issue.SetDueDate | Atlassian.Jira.Test/IssueTest.cs:174-182 | the due-date setter changes only the current due date |
| Issues.Issue.GetAttachments | Atlassian.Jira.Test/IssueTest.cs:196-223 | fails on an issue without a key; otherwise one attachment per listed one, with its file name |
| Issues.Issue.UploadAttachments | Atlassian.Jira.Test/IssueTest.cs:225-255 | fails on an issue without a key; otherwise uploads the named files to the issue's key |
| Issues.Attachments | Atlassian.Jira.Test/IssueTest.cs:205-223 | one local attachment per remote one, in order, with its file name |
| CustomFields.CustomFieldValueCollection.constructor | Atlassian.Jira/CustomFieldValueCollection.cs:19-31 | a collection starts over the given values (none by default) and operates for edit |
| CustomFields.ResolveFieldId | Atlassian.Jira/CustomFieldValueCollection.cs:83-128 | fails, naming the field and context, exactly when no offered field's name equals the name ignoring case; otherwise the id of the first that does |
| CustomFields.ResolveIgnoresCase | Atlassian.Jira/CustomFieldValueCollection.cs:87-88 | names equal up to case resolve to the same id, or both fail |
| CustomFields.CustomFieldValueCollection.Add | Atlassian.Jira/CustomFieldValueCollection.cs:58-63 | appends exactly one value under the resolved id and returns the collection; an unresolved name fails and changes nothing |
| CustomFields.CustomFieldValueCollection.AddValue | Atlassian.Jira/CustomFieldValueCollection.cs:38-41 | as `Add` with the single value |
| CustomFields.CustomFieldValueCollection.AddArray | Atlassian.Jira/CustomFieldValueCollection.cs:48-51 | as `Add` with the given values |
| CustomFields.CustomFieldValueCollection.Get | Atlassian.Jira/CustomFieldValueCollection.cs:70-77 | an unresolved name fails; otherwise the first value with the resolved id, or none |
| CustomFields.Lookup | Atlassian.Jira/CustomFieldValueCollection.cs:74-75 | none exactly when no value has the id; otherwise the first value with it |
| CustomFields.LookupAfterAppend | Atlassian.Jira/CustomFieldValueCollection.cs:61-75 | after an append, looking up the appended id finds the earlier value with that id if there is one, else the appended value |
| CustomFields.LookupOtherAfterAppend | Atlassian.Jira/CustomFieldValueCollection.cs:61-75 | an append changes nothing found for other ids |
| CustomFields.AddThenGet | Atlassian.Jira/CustomFieldValueCollection.cs:58-77 | a value added under a new id is what a lookup of that id finds |
| CustomFields.CustomFieldValueCollection.ForEdit | Atlassian.Jira/CustomFieldValueCollection.cs:83-100 | names now resolve against the edit screen; the values are unchanged; returns the collection |
| CustomFields.CustomFieldValueCollection.ForAction | Atlassian.Jira/CustomFieldValueCollection.cs:107-128 | names now resolve against that action's screen; the values are unchanged; returns the collection |
| CustomFields.RemoteFields | Atlassian.Jira/CustomFieldValueCollection.cs:130-137 | one wire value per item, in order, with its id and its values |
| CustomFields.CustomFieldValueCollection.GetRemoteFields | Atlassian.Jira/CustomFieldValueCollection.cs:130-137 | the collection's values in wire form |
| ProjectComponents.EntityDictionary | Atlassian.Jira/ProjectComponentsEditableResource.cs:48-49 | every listed id is a key, and every entry sits under its own id |
| ProjectComponents.EntityDictionaryFirstWins | Atlassian.Jira/ProjectComponentsEditableResource.cs:48-49 | an id maps to the first listed component with it |
| ProjectComponents.EntityDictionaryOnlyListed | Atlassian.Jira/ProjectComponentsEditableResource.cs:48-49 | every entry was listed |
| ProjectComponents.CacheAfterGet | Atlassian.Jira/ProjectComponentsEditableResource.cs:48-49 | the project's entry is added from the listing when missing; an existing entry and all other projects are kept |
| ProjectComponents.CacheAfterAdd | Atlassian.Jira/ProjectComponentsEditableResource.cs:80-87 | a missing entry becomes one holding exactly the new component; an existing one gains it only if its id is missing; other projects are kept |
| ProjectComponents.CacheAfterDelete | Atlassian.Jira/ProjectComponentsEditableResource.cs:119-124 | the id is removed when the project's entry exists and holds it; otherwise the cache is unchanged; other projects are kept |
| ProjectComponents.UpdatesKeepCoherent | Atlassian.Jira/ProjectComponentsEditableResource.cs:48-124 | all three updates keep every cached component under its own id |
| ProjectComponents.GetIsIdempotent | Atlassian.Jira/ProjectComponentsEditableResource.cs:48-49 | a second listing never changes a cached entry |
| ProjectComponents.AddIsIdempotent | Atlassian.Jira/ProjectComponentsEditableResource.cs:83-87 | recording a created component twice is recording it once |
| ProjectComponents.AddThenDelete | Atlassian.Jira/ProjectComponentsEditableResource.cs:80-124 | deleting a component just created restores its project's entry (an empty one if it was new) |
| ProjectComponents.CreationBody | Atlassian.Jira/ProjectComponentsEditableResource.cs:74-76 | the request body's "project" member is the project key |
| ProjectComponents.CreationBodyKeys | Atlassian.Jira/ProjectComponentsEditableResource.cs:74-76 | the body keeps the creation info's member order; a `project` member it lacked is added last |
| ProjectComponents.CreationBodyKeepsInfo | Atlassian.Jira/ProjectComponentsEditableResource.cs:74-76 | every other member of the serialized creation info is kept |
| ProjectComponents.DeleteResource | Atlassian.Jira/ProjectComponentsEditableResource.cs:113-115 | the component path, `?`, and `moveIssuesTo=` with the escaped replacement only when one is given and non-empty; parsed by `DeleteResourceParameters` |
| ProjectComponents.DeleteParameters | Atlassian.Jira/ProjectComponentsEditableResource.cs:113-115 | the query is empty exactly when no non-empty replacement component is given |
| ProjectComponents.DeleteResourceParameters | Atlassian.Jira/ProjectComponentsEditableResource.cs:113-115 | the DELETE resource parses into the component's path and either nothing or `moveIssuesTo` with the escaped replacement |
| ProjectComponents.FindByName | Atlassian.Jira/ProjectComponentsEditableResource.cs:111 | fails exactly when no listed component's name equals the name ignoring case; otherwise the first that does |
| ProjectComponents.JiraCache.constructor | Atlassian.Jira/ProjectComponentsEditableResource.cs:49 | the cache starts empty |
| ProjectComponents.ProjectComponentsEditableResource.constructor | Atlassian.Jira/ProjectComponentsEditableResource.cs:25-29 | the resource keeps its project key and the client's cache |
| ProjectComponents.ListResource | Atlassian.Jira/ProjectComponentsEditableResource.cs:45 | `rest/api/2/project/{key}/components`, requested by `GetAsync` |
| ProjectComponents.ProjectComponentsEditableResource.GetAsync | Atlassian.Jira/ProjectComponentsEditableResource.cs:43-53 | requests the project's components resource, returns the listing, and updates the cache by `CacheAfterGet`, keeping it coherent |
| ProjectComponents.ProjectComponentsEditableResource.AddAsync | Atlassian.Jira/ProjectComponentsEditableResource.cs:69-91 | posts the creation body to the component resource, returns the created component, and updates the cache by `CacheAfterAdd`, keeping it coherent |
| ProjectComponents.ProjectComponentsEditableResource.DeleteAsync | Atlassian.Jira/ProjectComponentsEditableResource.cs:109-126 | with no component of that name, fails and leaves the cache alone; otherwise deletes the first match's resource and updates the cache by `CacheAfterDelete`, keeping it coherent; the outcome of the request is not looked at |
| UserJson.CanConvert | Atlassian.Jira/Remote/JiraUserJsonConverter.cs:21-24 | true exactly for the user type |
| UserJson.ReadJson | Atlassian.Jira/Remote/JiraUserJsonConverter.cs:26-42 | a null user fails first, then a null avatar dictionary fails (both dereferenced unchecked); otherwise every field is copied from the remote record, the identifier is the account id under privacy and the name otherwise, and the avatar is the first avatar value, or none |
| UserJson.Deserialize | Atlassian.Jira/Remote/JiraUserJsonConverter.cs:28 | JSON null binds to a null user and an object to a record; the identifier fields bind from `accountId` and `name`, and the avatar dictionary is null exactly when the object has no object-valued `avatarUrls` |
| UserJson.StringOf | Atlassian.Jira/Remote/JiraUserJsonConverter.cs:28 | a JSON string binds to its text; any other value or a missing member binds to null |
| UserJson.StringOfNullableJson | Atlassian.Jira/Remote/JiraUserJsonConverter.cs:50-52 | a written nullable string binds back to itself |
| UserJson.AvatarValues | Atlassian.Jira/Remote/JiraUserJsonConverter.cs:40 | the avatar values in member order |
| UserJson.WriteJson | Atlassian.Jira/Remote/JiraUserJsonConverter.cs:44-56 | nothing is written exactly for a non-user; a user writes one member, keyed `accountId` under privacy and `name` otherwise, holding the identifier |
| UserJson.WriteThenBind | Atlassian.Jira/Remote/JiraUserJsonConverter.cs:28-52 | a written user binds back with its identifier in the field the flag selects, the other identifier field null, and no avatar dictionary |
| UserJson.WrittenUserDoesNotReadBack | Atlassian.Jira/Remote/JiraUserJsonConverter.cs:40-52 | reading what the converter writes fails, under either flag, on the missing avatar dictionary |
| UserJson.WriteThenRead | Atlassian.Jira/Remote/JiraUserJsonConverter.cs:26-56 | a written user that also carries an avatar dictionary reads back under the same flag with its identifier, and under the other flag with none |
| UserService.DeleteUserResource | Atlassian.Jira/Remote/JiraUserService.cs:29-30 | `rest/api/2/user?` then the flag-chosen key (`accountId` or `username`), `=` and the escaped identifier; its meaning is stated by `UserResourceParameters` |
| UserService.GetUserResource | Atlassian.Jira/Remote/JiraUserService.cs:36-37 | the same resource as the delete call (`GetAndDeleteAgree`), parsed by `UserResourceParameters` |
| UserService.SearchUsersResource | Atlassian.Jira/Remote/JiraUserService.cs:41-50 | the search path and the five parameters of `SearchResourceParameters`, with the defaults of `SearchDefaults` |
| UserService.CreateResourceBare | Atlassian.Jira/Remote/JiraUserService.cs:21 | the create resource is the bare user path, with no query |
| UserService.MyselfResourceBare | Atlassian.Jira/Remote/JiraUserService.cs:57 | the "myself" resource is a bare path, with no query |
| UserService.GetAndDeleteAgree | Atlassian.Jira/Remote/JiraUserService.cs:29-37 | getting and deleting a user address the same resource |
| UserService.UserResourceParameters | Atlassian.Jira/Remote/JiraUserService.cs:29-37 | the user resource is the create path with one parameter, keyed `accountId` under privacy and `username` otherwise, holding the escaped identifier |
| UserService.SearchResourceParameters | Atlassian.Jira/Remote/JiraUserService.cs:41-50 | the search resource parses into its path and, in order, the flag-chosen query key, includeActive, includeInactive, startAt and maxResults |
| UserService.SearchDefaults | Atlassian.Jira/Remote/JiraUserService.cs:41 | by default the search asks for active users only, from 0, at most 50 |
| Query.ParseRenderQuery | Atlassian.Jira/Remote/JiraUserService.cs:41-50 | a query string of separable parameters parses back into them |
| Query.ParseResourceRoundTrip | Atlassian.Jira/ProjectComponentsEditableResource.cs:113-115 | `path?query` parses back into the path and the parameters when the path has no `?` |
| Json.SetMember | Atlassian.Jira/ProjectComponentsEditableResource.cs:76 | after setting a member, looking it up gives the value set |
| Json.SetMemberKeys | Atlassian.Jira/ProjectComponentsEditableResource.cs:76 | setting a member keeps the member order, and a new key goes last |
| Json.SetMemberKeepsOthers | Atlassian.Jira/ProjectComponentsEditableResource.cs:76 | setting a member leaves every other member's value as it was |
| Text.FirstIndex | Atlassian.Jira/CustomFieldValueCollection.cs:87-88 | `FirstOrDefault`: the least index satisfying the predicate, or none exactly when no element does |
| Text.DigitsValueOfNatText | Atlassian.Jira.Test/IssueTest.cs:174-182 | the decimal text of a number, as the day of a rendered due date, reads back as that number (so different days render differently) |

## Left out

- Transport: HTTP, SOAP, asynchronous continuations, cancellation tokens and the flattening of
  `AggregateException` are not modelled. A server's answer is a parameter of the operation that
  receives it.
- Newtonsoft.Json itself is not modelled. A JSON object is an ordered list of members, and
  binding a record looks members up by name. Values of the wrong JSON type bind to null, and a
  non-object binds to a null user, where the serializer would throw.
- The synchronous `Add` and `Delete` block on the asynchronous calls through `ExecuteAndGuard`,
  which only unwraps the exception. They are not modelled separately.
- The synchronous `Get` delegates to `Jira.GetProjectComponents`, which is not part of this
  model. That call is also where `DeleteAsync` gets the components it searches by name. The
  parameter `listed` of `DeleteAsync` stands for that call's answer.
- ProjectComponents.ProjectComponentsEditableResource.DeleteAsync: the continuation never
  looks at the DELETE request's outcome. A failed request still evicts the cache entry, and
  the call still succeeds. The model's unconditional success and eviction are that behaviour.
  `GetAsync` and `AddAsync` rethrow a failed request instead; that is transport, outside the model.
- URI escaping is left out, because it is library percent-encoding (section 2.1 of RFC 3986).
  It is the parameter `escape`. `Uri.EscapeUriString` leaves `&` unescaped, so a user id or
  search text containing `&` would split the query. The parse lemmas therefore assume that the
  escaped text holds no `&`.
- Case-insensitive comparison is left out, because it is Unicode case mapping. It is the
  parameter `fold`, applied to each character.
- The token session: `Jira.cs` is not part of this model. `WithToken` is modelled from the tests
  of its behaviour.
  - An empty cached token means none is cached.
  - Which faults count as authentication faults is an abstract predicate.
  - What a second authentication fault during the retry does is not shown, so the retry's outcome
    is returned as it is.
  - Thread safety of the token cache is left out.
- Filter lookup: the case rule of the name match is not shown, so names match exactly.
- Issues: `Issue.cs` is not part of this model, so the issue behaviour comes from its tests.
  - Field ids are the remote property names, and the field order is the one the tests list.
  - Dates are (year, month, day) only. The day is shown unpadded because only one date is ever
    formatted.
  - Custom fields take no part in the issue diff here.
- Issues.Issue.UploadAttachments: the read file contents and their base64 encoding that an
  upload also sends are left out, because file I/O is outside the model. Only the key and the
  file names are modelled.
- Issues.Issue.GetAttachments: the token argument of the remote call is left out. `WithToken`
  already models it.
- ProjectComponents.EntityDictionary: `JiraEntityDictionary` is not part of this model. When
  listed ids repeat, the first listed component is kept.
- `OAuthAccessTokenSettings` is left out, because it holds only assignments and two default
  values.
- CustomFields.RemoteFields: values are non-null strings in the model, so the wire values are
  never null.
