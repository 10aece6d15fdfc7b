# hubcaps, modelled in Dafny

hubcaps is a Rust client for the GitHub REST API. Most of it is HTTP plumbing. Behind that plumbing sits a layer of rules that this project states and proves in Dafny:

- **The request layer** (`Client`, `Errors`, `Rep`). This covers:
  - the URL and headers of a request;
  - how a reply's status and body become a value or an error: a client fault carries the decoded `ClientError`, and `delete` accepts a body that is not `()`;
  - the error taxonomy with its descriptions, causes and conversions.
- **Pagination** (`Unfold`). `StreamState` is a class with `items` and `nextPage` fields. Its methods are proved against value-level specifications:
  - a page's items come out last first;
  - a held error comes out once;
  - the next-page link is always consumed.
- **The contents codec** (`Content`, `Base64`, `Bytes`, `UrlEncoding`).
  - Strict standard base64 (RFC 4648, section 4) is proved to be a bijection with its encoder.
  - The contents decoder tolerates newlines, and is proved to decode text wrapped at any width.
  - The contents URL percent-encodes the location.
- **The conditional-request cache** (`HttpCache`). This covers the sixteen-digit hexadecimal names, the `v1/scheme/authority/path[/hash].ext` layout, `NoCache`, and a file-based cache over a map from paths to contents.
- **Wire tables**. Every `Display` and serde-renamed enum is paired with a parser, with an all-inputs lemma that the two agree. Every table is closed, so an unknown tag does not decode.
- **Query maps and builders** (`QueryParams`, one class per `*Builder`). A setter inserts or replaces one key and keeps the others. `serialize` gives nothing exactly when no option is set. Single-pair queries are computed exactly.
- **JSON bodies and records** (`Json`, `Schema`, one module per resource). A generic model of serde's derived (de)serializers comes with a round-trip theorem and field-by-field decoding lemmas. Every request body and response record is an instance of it, with:
  - its optional fields;
  - the fields left out when `None`;
  - the examples the source's tests give.
- **Paths**. Each resource handle builds its request paths; lemmas state which verb and URI each operation sends.

I/O is modelled as follows:
- The network is a parameter: a reply is a status and an already-read body.
- The file system of the cache is a map.
- `DefaultHasher` and `Url::parse` results are inputs.

## Model

| member | source | states |
|---|---|---|
| App.AccessTokenCall | src/app.rs:23-34 | A token is minted by an empty POST below the app's installation. |
| App.RepoInstallationCall | src/app.rs:36-44 | A repository's installation is read below the repository. |
| App.AccessTokenUriInjective | src/app.rs:27-29 | Different installations mint their tokens at different uris. |
| App.AppOptionalExactly | src/app.rs:55-70 | Of the installation's fields only single_file_name is an `Option`. |
| App.AccessTokenRequired | src/app.rs:49-53 | A token missing either field does not decode. |
| App.InstallationFields | src/app.rs:55-70 | An installation missing its single file name, or giving it as `null`, reads it as `None`; one missing any other field, the events included, does not decode. |
| App.IdRange | src/app.rs:62-63 | An app or target id outside the `i32` range fails the installation. |
| App.FindRepoInstallation | src/app.rs:36-44 | A GET of `/repos/{owner}/{repo}/installation` with no body. |
| App.MakeAccessToken | src/app.rs:27-34 | A POST of `/app/installations/{installationId}/access_tokens` with an empty body. |
| Collaborators.DefaultPermissions | src/collaborators.rs:17-21 | The default permission is the one written "push". |
| Collaborators.PermissionsTextDistinct | src/collaborators.rs:23-34 | The three permissions are written differently, so the text names the permission. |
| Collaborators.CollaboratorCalls | src/collaborators.rs:54-83 | Listing reads the collaborators; asking, adding and removing all use the user's uri below them. |
| Collaborators.IsCollaboratorOutcome | src/collaborators.rs:62-68 | The answer `is_collaborator` makes of what reading `()` gave: a success is true, a Not Found fault is false, and every other error is passed on. |
| Collaborators.IsCollaboratorAnswers | src/collaborators.rs:62-68 | A user is reported a collaborator only on a reply whose status is not a client fault and whose body is `null`; a Not Found whose body reads as a `ClientError` reports false; a transport or read error is passed on. |
| Collaborators.IsCollaboratorNoContent | src/collaborators.rs:62-68 | A collaborator is answered with a success and no content. `is_collaborator` reads that empty body as `()`, fails, and passes the syntax error on instead of answering true. |
| Collaborators.IsCollaboratorOutcomeCorrected | src/collaborators.rs:62-68 | The answer with a body that does not read as `()` taken as a success, as `is_starred` does for stars. |
| Collaborators.IsCollaboratorCorrectedAnswers | src/collaborators.rs:62-68 | With the correction, every reply whose status is not a client fault answers true, whatever its body, and a Not Found whose body reads as a `ClientError` answers false. |
| Collaborators.Add | src/collaborators.rs:70-79 | A PUT of `/repos/{owner}/{repo}/collaborators/{username}` with the permission's JSON. |
| Collaborators.IsCollaborator | src/collaborators.rs:62-68 | False exactly for a Not Found whose body reads as a `ClientError`, or a Not Found fault from the transport; a value exactly for those and for a reply that is not a client fault and whose body is `null`; any other transport error is passed on. |
| Collaborators.IsCollaboratorCall | src/collaborators.rs:62-68 | A GET of `/repos/{owner}/{repo}/collaborators/{username}` with no body. |
| Collaborators.IsCollaboratorCorrected | src/collaborators.rs:62-68 | False exactly for a Not Found whose body reads as a `ClientError`, or a Not Found fault from the transport; an error exactly for another client fault with such a body, or a transport error that is neither a codec error nor a Not Found fault, which is passed on; true otherwise, an empty success included. |
| Collaborators.List | src/collaborators.rs:58-60 | A GET of `/repos/{owner}/{repo}/collaborators` with no body. |
| Collaborators.Remove | src/collaborators.rs:81-83 | A DELETE of `/repos/{owner}/{repo}/collaborators/{username}` with no body. |
| Stars.StarCalls | src/stars.rs:20-80 | Asking, starring and unstarring address the repository below the authenticated user's stars; a user's stars are listed below that user. |
| Stars.IsStarredOutcome | src/stars.rs:20-40 | The answer `is_starred` makes of what reading `()` gave: a success is true, a Not Found fault is false, a body that does not read as `()` is true, and every other error is passed on. |
| Stars.IsStarredAnswers | src/stars.rs:20-40 | Any reply whose status is not a client fault answers true, whatever its body; a Not Found answers false when its body reads as a `ClientError` and true when it does not; another client fault is passed on when its body reads as a `ClientError`; transport errors are passed on. |
| Stars.IsStarredFalse | src/stars.rs:20-40 | The answer is false only for a Not Found whose body reads as a `ClientError`. |
| Stars.IsStarred | src/stars.rs:20-40 | False exactly for a Not Found whose body reads as a `ClientError`, or a Not Found fault from the transport; an error exactly for another client fault with such a body, or a transport error that is neither a codec error nor a Not Found fault, which is passed on; true otherwise. |
| Stars.IsStarredCall | src/stars.rs:20-40 | A GET of `/user/starred/{owner}/{repo}` with no body. |
| Stars.Iter | src/stars.rs:74-80 | A GET of `/users/{username}/starred` with no body. |
| Stars.List | src/stars.rs:65-71 | A GET of `/users/{username}/starred` with no body. |
| Stars.Star | src/stars.rs:43-52 | A PUT of `/user/starred/{owner}/{repo}` with an empty body. |
| Stars.Unstar | src/stars.rs:55-62 | A DELETE of `/user/starred/{owner}/{repo}` with no body. |
| Traffic.TimeUnitTextDistinct | src/traffic.rs:16-24 | The two units are written differently. |
| Traffic.PopularCalls | src/traffic.rs:50-62 | The popular referrers and paths are read below the repository's traffic. |
| Traffic.BreakdownCalls | src/traffic.rs:64-80 | Views and clones are read below the repository's traffic, with the unit's display text after "?per=". |
| Traffic.TrafficAllRequired | src/traffic.rs:85-119 | No field of the traffic records is optional. |
| Traffic.ViewsClonesRequired | src/traffic.rs:100-119 | Views or clones missing any field do not decode. |
| Traffic.CountRange | src/traffic.rs:100-119 | A count that is negative or does not fit 32 bits fails the views, the clones and each data point. |
| Traffic.ViewsPoints | src/traffic.rs:100-105 | Views decode exactly when every data point does. |
| Traffic.Clones | src/traffic.rs:74-80 | A GET of `/repos/{owner}/{repo}/traffic/clones?per=week` for weeks and `/repos/{owner}/{repo}/traffic/clones?per=day` for days, with no body. |
| Traffic.Paths | src/traffic.rs:60-62 | A GET of `/repos/{owner}/{repo}/traffic/popular/paths` with no body. |
| Traffic.Referrers | src/traffic.rs:55-57 | A GET of `/repos/{owner}/{repo}/traffic/popular/referrers` with no body. |
| Traffic.Views | src/traffic.rs:65-71 | A GET of `/repos/{owner}/{repo}/traffic/views?per=week` for weeks and `/repos/{owner}/{repo}/traffic/views?per=day` for days, with no body. |
| Membership.InvitationsCall | src/membership.rs:29-33 | The invitations are read below the organization. |
| Membership.ParseInvitedRole | src/membership.rs:47-55 | A string reads as the role whose snake-case tag it is, in both directions; only the five tags read at all. |
| Membership.InvitedRoleDecode | src/membership.rs:47-55 | The role reads exactly its five tags; any other string is an unknown variant. |
| Membership.InvitationOptionalExactly | src/membership.rs:36-45 | Of an invitation's fields, login, email and team_count are `Option`s. |
| Membership.InvitationFields | src/membership.rs:36-45 | An invitation missing login, email or team_count reads them as `None`; one missing id, role, created_at or inviter does not decode. |
| Membership.InvitationUnknownRole | src/membership.rs:36-55 | An invitation whose role is not one of the five tags does not decode at all. |
| Membership.Invitations | src/membership.rs:29-33 | A GET of `/orgs/{org}/invitations` with no body. |
| Milestone.MilestoneOptionalExactly | src/milestone.rs:5-23 | Of the milestone's fields exactly description, due_on and closed_at are `Option`s. |
| Milestone.MilestoneFields | src/milestone.rs:5-23 | A milestone missing its description, due time or closing time, or giving one as `null`, reads it as `None`; one missing any other field, the creator included, does not decode. |
| Milestone.CountersRange | src/milestone.rs:10-17 | A count or id that is negative or does not fit 64 bits fails the milestone. |
| Milestone.AnyState | src/milestone.rs:18 | Any string is a state: the state's field accepts every string, and a milestone that decodes holds the string it was given. |
| Milestone.MilestoneNulls | src/milestone.rs:14-22 | The derived serializer writes each of the three `Option` fields, `null` when `None`. |
| RateLimit.GetCall | src/rate_limit.rs:18-20 | The rate limit is read by a GET of "/rate_limit". |
| RateLimit.ResourcesRequired | src/rate_limit.rs:25-35 | A status without its resources, or resources missing any of core, search and graphql, do not decode. |
| RateLimit.CounterRange | src/rate_limit.rs:37-42 | A counter that is negative or does not fit 32 bits fails the resource. |
| RateLimit.ResourceExact | src/rate_limit.rs:37-42 | Counters that fit 32 bits are read as they are: the reset time comes back as the same number, with no conversion. |
| RateLimit.Get | src/rate_limit.rs:18-20 | A GET of `/rate_limit` with no body. |
| Watching.WatchCalls | src/watching.rs:18-60 | Reading, watching, ignoring and unwatching all address the one subscription uri below the repository; watching and ignoring each put one flag set to true. |
| Watching.WatchIgnoreDiffer | src/watching.rs:32-52 | Watching and ignoring send different bodies, so neither stands for the other. |
| Watching.SubscriptionOptionalExactly | src/watching.rs:63-71 | Of the subscription's fields only reason is an `Option`. |
| Watching.SubscriptionFields | src/watching.rs:63-71 | A subscription missing its reason, or giving it as `null`, reads it as `None`; one missing any other field does not decode. |
| Watching.GetForRepo | src/watching.rs:25-30 | A GET of `/repos/{owner}/{repo}/subscription` with no body. |
| Watching.IgnoreRepo | src/watching.rs:44-52 | A PUT of `/repos/{owner}/{repo}/subscription` with `{"ignored":true}`. |
| Watching.Iter | src/watching.rs:20-22 | A GET of `/user/subscriptions` with no body. |
| Watching.UnwatchRepo | src/watching.rs:55-60 | A DELETE of `/repos/{owner}/{repo}/subscription` with no body. |
| Watching.WatchRepo | src/watching.rs:33-41 | A PUT of `/repos/{owner}/{repo}/subscription` with `{"subscribed":true}`. |
| Labels.NewLabelOptions | src/labels/mod.rs:52-68 | `LabelOptions::new`: exactly the name and the color, both always written. |
| Labels.LabelCalls | src/labels/mod.rs:25-47 | Listing and creating use the labels collection; renaming and deleting use the label's own URI below it, addressed by the old name. |
| Labels.LabelRoundTrip | src/labels/mod.rs:70-75 | Decoding what encoding a label wrote gives the label back. |
| Labels.Create | src/labels/mod.rs:29-32 | A POST of `/repos/{owner}/{repo}/labels` with the JSON of the label options. |
| Labels.Delete | src/labels/mod.rs:39-43 | A DELETE of `/repos/{owner}/{repo}/labels/{name}` with no body. |
| Labels.List | src/labels/mod.rs:45-47 | A GET of `/repos/{owner}/{repo}/labels` with no body. |
| Labels.Update | src/labels/mod.rs:34-37 | A PATCH of `/repos/{owner}/{repo}/labels/{prevname}` with the JSON of the label options. |
| Keys.KeyCalls | src/keys/mod.rs:34-52 | Keys are created and listed at the repository's keys, and read and deleted at their id below them. |
| Keys.KeyOptionsJsonFields | src/keys/mod.rs:67-72 | The options always write all three keys, in declaration order. |
| Keys.KeyOptionsRoundTrip | src/keys/mod.rs:67-72 | What a server reads back from the body is the options that were sent. |
| Keys.KeyRequired | src/keys/mod.rs:57-65 | A key missing any of its six fields does not decode. |
| Keys.Create | src/keys/mod.rs:38-40 | A POST of `/repos/{owner}/{repo}/keys` with the JSON of the key options. |
| Keys.Delete | src/keys/mod.rs:50-52 | A DELETE of `/repos/{owner}/{repo}/keys/{id}` with no body. |
| Keys.Get | src/keys/mod.rs:46-48 | A GET of `/repos/{owner}/{repo}/keys/{id}` with no body. |
| Keys.List | src/keys/mod.rs:42-44 | A GET of `/repos/{owner}/{repo}/keys` with no body. |
| Errors.Description | src/errors.rs:24-32 | A parse error describes itself by its message and a fault by the message GitHub sent. |
| Errors.CauseOf | src/errors.rs:34-41 | An error has a cause exactly when it wraps a codec, transport or I/O error, and the cause describes itself as the error does. |
| Errors.FromSerde | src/errors.rs:50-54 | A serde error converts to a codec error whose cause is that serde error. |
| Errors.FromHttp | src/errors.rs:56-60 | A transport error converts to an HTTP error whose cause is that transport error. |
| Errors.FromIo | src/errors.rs:62-66 | An I/O error converts to an I/O error whose cause is that I/O error. |
| Errors.FromCause | src/errors.rs:50-66 | Converting any underlying error and asking for the cause gives that underlying error back. |
| Client.AtHost | src/lib.rs:101-115 | A client made for a host keeps that host, the user agent and the token. |
| Client.New | src/lib.rs:92-99 | A client made by `new` is the client for the default host "https://api.github.com". |
| Client.Headers | src/lib.rs:148-158 | The user agent header comes first and always; an `Authorization: token ...` header follows exactly when a token is set. |
| Client.Prepare | src/lib.rs:145-164 | The URL is the host followed by the URI; the method and body are the call's and the headers the client's. |
| Client.NewUsesDefaultHost | src/lib.rs:92-99 | A client made by `New` sends every request to the public API. |
| Client.AuthorizedIffToken | src/lib.rs:151-158 | A request is authorized exactly when the client holds a token. |
| Client.ReadBody | src/lib.rs:171-184 | A body that is not JSON text is a syntax error; one that does not read as the type is a codec error carrying why; otherwise the decoded value. |
| Client.Respond | src/lib.rs:159-185 | Transport errors pass through; a 400, 401, 403, 404 or 422 is always an error, a `Fault` with the decoded `ClientError` exactly when the body reads as one; any other status is read as the result type. |
| Client.FaultNeverSucceeds | src/lib.rs:172-182 | A client-fault status never yields a value, whatever the body: at worst the error is the codec's. |
| Client.GetCall | src/lib.rs:188-194 | `get` is a GET of the URI with no body. |
| Client.DeleteCall | src/lib.rs:196-205 | `delete` is a DELETE of the URI with no body. |
| Client.PostCall | src/lib.rs:207-213 | `post` is a POST of the URI with the JSON body. |
| Client.PatchCall | src/lib.rs:215-221 | `patch` is a PATCH of the URI with the JSON body. |
| Client.PutCall | src/lib.rs:223-229 | `put` is a PUT of the URI with the JSON body. |
| Client.DecodeUnit | src/lib.rs:184-201 | The unit type reads from JSON exactly when the value is `null`. |
| Client.DeleteOutcome | src/lib.rs:196-205 | A decoding error becomes a success; every other outcome passes through unchanged. |
| Client.DeleteResult | src/lib.rs:196-205 | A reply whose status is not a client fault is a success whatever its body; a transport error passes through. |
| Client.DeleteFault | src/lib.rs:172-205 | A client fault reaches the caller of `delete` exactly when its body reads as a `ClientError`. |
| Client.ParseState | src/lib.rs:45-53 | A string reads as the state whose display text it is, in both directions. |
| Client.DefaultState | src/lib.rs:55-59 | The default state is the one written "open". |
| Client.ParseSortDirection | src/lib.rs:68-75 | A string reads as the direction whose display text it is, in both directions. |
| Client.DefaultSortDirection | src/lib.rs:77-81 | The default direction is the one written "asc". |
| QueryParams.Insert | src/repositories/mod.rs:756-799 | After an insert the key maps to the new value and every other key keeps its value; the map stays one entry per key. |
| QueryParams.Serialize | src/repositories/mod.rs:739-749 | `serialize`: `None` exactly when no parameter is set, otherwise the `&`-separated `key=value` pairs, form-encoded. |
| QueryParams.WithQuery | src/repositories/mod.rs:166-174 | A list URI: the path and the serialized options joined by "?", or the bare path when no option is set. |
| QueryParams.SerializeOne | src/repositories/mod.rs:740-749 | A single parameter serializes to its one pair, whatever the order. |
| QueryParams.SerializeSafeOne | src/repositories/mod.rs:740-749 | A single parameter of letters, digits and `*-._` serializes as `key=value`. |
| QueryParams.FormEncodeCommaList | src/repositories/mod.rs:766-776 | A list of safe names joined by commas, as the list-valued options store it, is sent with each comma written as `%2C` and the names unchanged. |
| QueryParams.InsertTwice | src/repositories/mod.rs:756-799 | Setting the same key twice keeps only the later value. |
| Unfold.NextLink | src/unfold.rs:170-175 | `next_link`: the target of the first value whose first relation is `next`. |
| Unfold.Load | src/unfold.rs:140-161 | `load_state`: a page replaces the items with what `toItems` makes of its payload and the link with its own; an error is held with no next page. |
| Unfold.FlatNext | src/unfold.rs:74-115 | `flat_next`: the last item of a non-empty page comes out first and leaves the rest; a held error comes out once and leaves nothing behind; an exhausted or absent page is dropped and the stream asks for the next page when there is a link, and ends otherwise. |
| Unfold.Steps | src/unfold.rs:57-115 | What `n` steps give out before one of them fetches or ends, and the state they leave. |
| Unfold.DrainPage | src/unfold.rs:74-94 | A page gives out all its items, last first, keeping the link to the next page; the step after that asks for the next page when there is a link and ends otherwise. |
| Unfold.ErrorOnce | src/unfold.rs:95-115 | A held error comes out once, and then the stream has nothing: no items and no link. |
| Unfold.FetchNext | src/unfold.rs:117-138 | `fetch_next_page` as a value: the link is always consumed; a `next` target that parses is requested and its response loaded, and otherwise the items stay and there is no next page. The result says how many responses were used. |
| Unfold.NextSpec | src/unfold.rs:57-72 | `next`: step until an item or the end; each time a page is needed, fetch it and carry on. The result says how many responses were used. |
| Unfold.NextSpecUnfold | src/unfold.rs:57-72 | One round of `NextSpec`, by the step `FlatNext` takes. |
| Unfold.FetchProgress | src/unfold.rs:117-138 | A page request that is not left pending either uses a response or brings the stream closer to its end. |
| Unfold.StreamState.constructor | src/unfold.rs:42-55 | `StreamState::new`: the first page loaded as `load_state` loads every page. |
| Unfold.StreamState.LoadState | src/unfold.rs:140-161 | `load_state`. |
| Unfold.StreamState.FlatNextStep | src/unfold.rs:74-115 | `flat_next`: takes the items out, pops the last one when there is one and puts the rest back. |
| Unfold.StreamState.FetchNextPageStep | src/unfold.rs:117-138 | `fetch_next_page`: takes the link out; requests the next page when the link has a `next` target that parses, using the first of `pages`. |
| Unfold.StreamState.Round | src/unfold.rs:59-71 | One pass of the loop in `next`: a step, and a page request when the step asks for one. `done` says the loop returns `poll`; otherwise it goes round again. |
| Unfold.StreamState.PageRound | src/unfold.rs:117-138 | The rest of a pass whose step asked for a page: the request, and either a pending result or another pass over the loaded page. |
| Unfold.StreamState.NextItem | src/unfold.rs:57-72 | `next`: the loop that steps until an item comes out or the stream ends. |
| Unfold.NextUri | src/unfold.rs:117-126 | A URI exactly when the link has a `next` target that parses, and then the parsed URL's path, a '?' and its query. |
| Unfold.PageUri | src/unfold.rs:122 | The path, a '?', then the query when there is one: the '?' is there even without a query. |
| Rep.ClientErrorShape | src/rep.rs:3-16 | What conforming to `ClientErrorKind` says about a value. |
| Rep.FieldErrViews | src/rep.rs:3-10 | The typed view and the codec's values describe the same things. |
| Rep.ClientErrorViews | src/rep.rs:12-16 | The typed `ClientError` and the codec's values describe the same things, in both directions. |
| Rep.DecodeClientError | src/rep.rs:12-16 | A body reads as a `ClientError` exactly when it conforms to the record's shape. |
| Rep.DecodeClientErrorOf | src/rep.rs:12-16 | A body that decodes reads as the `ClientError` its decoded value describes. |
| Rep.DecodeReleaseErrorEntry | src/rep.rs:204-227 | The entry of the "Validation Failed" body of a release with a bad tag: it has no `field` and no `documentation_url`, and reads with both as `None`. |
| Rep.DecodeReleaseValidationBody | src/rep.rs:204-227 | The whole "Validation Failed" body decodes to a message and a one-entry list. |
| Rep.DecodeReleaseValidationError | src/rep.rs:204-227 | `serde_json` reads the release body into a `ClientError` whose entry has `field` and `documentation_url` set to `None`. |
| Rep.ReleaseValidationErrorOf | src/rep.rs:204-227 | The value the release body decodes to reads as the one-entry client error. |
| Rep.DecodeClientErrorAbsentErrors | src/rep.rs:12-16 | Any message with the `errors` key absent: it reads as `None`. |
| Rep.DecodeClientErrorNullErrors | src/rep.rs:12-16 | Any message with `"errors": null`: it reads as `None`. |
| Rep.DecodeClientErrorEmptyErrors | src/rep.rs:12-16 | Any message with `"errors": []`: it reads as `Some` of the empty list, not as `None`. |
| Rep.ParseStatusState | src/rep.rs:166-180 | A string reads as the state whose renamed tag it is, in both directions; only the four tags read. |
| Rep.DefaultStatusState | src/rep.rs:182-186 | The default state is the one written "pending". |
| Rep.StatusOptionsJsonFields | src/rep.rs:77-86 | The body lists state, target_url, description and context in that order, leaving out each one that is `None`. |
| Rep.StatusOptionsRoundTrip | src/rep.rs:77-86 | What a server reads back from the body is the options that were sent. |
| Rep.StatusOptionsExamples | src/rep.rs:252-268 | The four bodies of the status request examples. |
| Rep.StatusBuilder.constructor | src/rep.rs:96-99 | A new builder holds the state and no target URL, description or context. |
| Rep.StatusBuilder.SetTargetUrl | src/rep.rs:101-106 | Sets the target URL and leaves the other fields as they were. |
| Rep.StatusBuilder.SetDescription | src/rep.rs:108-113 | Sets the description and leaves the other fields as they were. |
| Rep.StatusBuilder.SetContext | src/rep.rs:115-120 | Sets the context and leaves the other fields as they were. |
| Rep.StatusBuilder.Build | src/rep.rs:122-127 | The options with every field as the builder holds it. |
| Statuses.StatusPaths | src/statuses/mod.rs:34-59 | A status is created below the repository's "statuses" and listed below the commit; the list and the combined status differ only in the final "es". |
| Statuses.DecodeState | src/statuses/mod.rs:159-173 | Reading a `State` from JSON: only the four tags are accepted. |
| Statuses.StateRoundTrip | src/statuses/mod.rs:195-217 | Decoding undoes encoding on each of the four states, and each is written as its tag. |
| Statuses.StatusRequestExamples | src/statuses/mod.rs:219-247 | The four bodies of the status request examples, each built through the builder. |
| Statuses.StatusRequired | src/statuses/mod.rs:64-75 | A status missing any field does not decode. |
| Statuses.StatusUnknownState | src/statuses/mod.rs:159-173 | A status whose state is not one of the four tags does not decode: there is no fallback variant. |
| Statuses.Combined | src/statuses/mod.rs:54-59 | A GET of `/repos/{owner}/{repo}/commits/{sha}/status` with no body. |
| Statuses.DecodeString | src/statuses/mod.rs:54 | Only a JSON string reads as a `String`, as itself; anything else is an invalid type. |
| Statuses.CombinedResult | src/statuses/mod.rs:52-59 | Transport errors pass through; a reply that is not a client fault succeeds exactly when its body is a JSON string, and then gives that string. |
| Statuses.CombinedObjectFails | src/statuses/mod.rs:52-59 | An object reply, as GitHub sends for the combined status, ends in a codec error (invalid type), whatever it holds. |
| Statuses.Create | src/statuses/mod.rs:39-42 | A POST of `/repos/{owner}/{repo}/statuses/{sha}` with the JSON of the status options. |
| Statuses.List | src/statuses/mod.rs:45-50 | A GET of `/repos/{owner}/{repo}/commits/{sha}/statuses` with no body. |
| Comments.CreateCall | src/comments/mod.rs:38-76 | A comment is created by posting `{"body": ...}` to the issue's comments. |
| Comments.List | src/comments/mod.rs:43-50 | `list`: the path, then the serialized options pushed after it when any is set, joined by "?". |
| Comments.ListUri | src/comments/mod.rs:43-98 | Listing without options reads the bare path; with some, the path, '?' and the pairs. |
| Comments.CommentListOptionsBuilder.constructor | src/comments/mod.rs:83-102 | `CommentListOptions::builder`: no option set. |
| Comments.CommentListOptionsBuilder.Since | src/comments/mod.rs:105-111 | `since`: the time as given, under "since". |
| Comments.CommentListOptionsBuilder.Build | src/comments/mod.rs:113-117 | `build`: the options hold a copy of the map. |
| Comments.SinceExample | src/comments/mod.rs:88-111 | Options left empty serialize to nothing; options with a date of digits and dashes as `since` serialize to "since=" and the date. |
| Comments.CommentRequired | src/comments/mod.rs:62-71 | A comment missing any field does not decode. |
| Comments.CommentIdRange | src/comments/mod.rs:62-71 | A comment whose id is negative or does not fit 64 bits does not decode. |
| Comments.Create | src/comments/mod.rs:39-41 | A POST of `/repos/{owner}/{repo}/issues/{number}/comments` with the JSON of the comment options. |
| Organizations.ListCalls | src/organizations/mod.rs:54-92 | The authenticated user's organizations are read at "/user/orgs", another user's below that user. |
| Organizations.TeamsOf | src/organizations/mod.rs:30-33 | The team operations handed out belong to the same organization. |
| Organizations.ReposOf | src/organizations/mod.rs:35-38 | The repository operations handed out belong to the same organization. |
| Organizations.OrganizationParts | src/organizations/mod.rs:30-38 | The teams and repositories handed out list below the same organization. |
| Organizations.OrgOptionalExactly | src/organizations/mod.rs:97-110 | Of the organization's fields only description is an `Option`. |
| Organizations.OrgFields | src/organizations/mod.rs:97-110 | An organization missing its description, or giving it as `null`, reads it as `None`; one missing any other field does not decode. |
| Organizations.ListForUser | src/organizations/mod.rs:90-92 | A GET of `/users/{user}/orgs` with no body. |
| Organizations.ListMine | src/organizations/mod.rs:60-62 | A GET of `/user/orgs` with no body. |
| PullCommits.PullCommitCalls | src/pull_commits/mod.rs:31-47 | Listing and streaming read the same page below the pull request. |
| PullCommits.IterPage | src/pull_commits/mod.rs:40-47 | A loaded page holds exactly the commits of the page, and the stream gives them all out, last first, before it asks for the next page. |
| PullCommits.SameAsRepoCommits | src/pull_commits/mod.rs:52-85 | The copies read the same JSON as the repository's commit records, field for field. |
| PullCommits.PullCommitFields | src/pull_commits/mod.rs:52-85 | A pull commit missing any field does not decode; details missing the committer read it as `None`, and details missing any other field do not decode. |
| PullCommits.Iter | src/pull_commits/mod.rs:41-47 | A GET of `/repos/{owner}/{repo}/pulls/{number}/commits` with no body. |
| PullCommits.List | src/pull_commits/mod.rs:32-38 | A GET of `/repos/{owner}/{repo}/pulls/{number}/commits` with no body. |
| RepoCommits.List | src/repo_commits.rs:29-37 | `list`: the commits, with "?path=" and the path appended, unescaped, only when the path is not empty. |
| RepoCommits.CommitCalls | src/repo_commits.rs:39-50 | A commit is read below the commits, at its ref; the stream starts where an unfiltered listing does. |
| RepoCommits.CommitOptionalExactly | src/repo_commits.rs:57-95 | Of the commit records, only the details' committer is an `Option`. |
| RepoCommits.CommitDetailsFields | src/repo_commits.rs:71-80 | Commit details missing the committer, or giving it as `null`, read it as `None`; details missing any other field do not decode. |
| RepoCommits.RepoCommitRequired | src/repo_commits.rs:57-69 | A commit missing any field, the author, the committer or the parents included, does not decode. |
| RepoCommits.RefStampRequired | src/repo_commits.rs:82-95 | A ref or a stamp missing any field does not decode. |
| RepoCommits.CommentCountRange | src/repo_commits.rs:79 | A comment count that is negative or does not fit 64 bits fails the details. |
| RepoCommits.ParentsEach | src/repo_commits.rs:68 | The parents decode exactly when every parent ref does. |
| RepoCommits.Get | src/repo_commits.rs:47-50 | A GET of `/repos/{owner}/{repo}/commits/{commitRef}` with no body. |
| RepoCommits.Iter | src/repo_commits.rs:41-44 | A GET of `/repos/{owner}/{repo}/commits` with no body. |
| ReviewComments.ReviewCommentCalls | src/review_comments/mod.rs:37-52 | Listing and creating use the one path. |
| ReviewComments.DefaultOptions | src/review_comments/mod.rs:57-63 | The default options hold empty body, commit id and path, and position 0. |
| ReviewComments.ReviewCommentOptionsJsonFields | src/review_comments/mod.rs:57-63 | All four keys are always written, in declaration order, the empty strings and the zero position of the defaults included. |
| ReviewComments.ReviewCommentOptionsRoundTrip | src/review_comments/mod.rs:57-63 | What a server reads back from the body is the options that were sent. |
| ReviewComments.ReviewCommentRequired | src/review_comments/mod.rs:65-81 | A review comment missing any field does not decode. |
| ReviewComments.PositionRange | src/review_comments/mod.rs:71-72 | A position that is negative or does not fit 64 bits fails the comment. |
| ReviewComments.Create | src/review_comments/mod.rs:43-45 | A POST of `/repos/{owner}/{repo}/pulls/{number}/comments` with the JSON of the review comment options. |
| ReviewComments.List | src/review_comments/mod.rs:38-40 | A GET of `/repos/{owner}/{repo}/pulls/{number}/comments` with no body. |
| ReviewRequests.ReviewRequestCalls | src/review_requests.rs:32-54 | Reading, adding and removing all use the one path; adding and removing send the same body and differ only in the verb. |
| ReviewRequests.DefaultOptions | src/review_requests.rs:59-66 | The default options request no reviewers and no teams. |
| ReviewRequests.ReviewRequestOptionsJsonFields | src/review_requests.rs:59-66 | Both lists are always written, as arrays of strings in order, even when empty. |
| ReviewRequests.DefaultOptionsJson | src/review_requests.rs:59-66 | The default options ask for nobody, with both keys present. |
| ReviewRequests.ReviewRequestOptionsRoundTrip | src/review_requests.rs:59-66 | What a server reads back from the body is the reviewers and teams that were sent. |
| ReviewRequests.ReviewRequestRequired | src/review_requests.rs:68-72 | A review request missing either list does not decode. |
| ReviewRequests.Create | src/review_requests.rs:38-40 | A POST of `/repos/{owner}/{repo}/pulls/{number}/requested_reviewers` with the JSON of the review request options. |
| ReviewRequests.Delete | src/review_requests.rs:43-47 | A DELETE of `/repos/{owner}/{repo}/pulls/{number}/requested_reviewers` with the JSON of the review request options. |
| ReviewRequests.Get | src/review_requests.rs:33-35 | A GET of `/repos/{owner}/{repo}/pulls/{number}/requested_reviewers` with no body. |
| Teams.PermissionTextDistinct | src/teams.rs:17-26 | The three permissions are written differently, so the text names the permission. |
| Teams.RepoTeamsCalls | src/teams.rs:49-60 | A page and the stream of a repository's teams start from the same request. |
| Teams.OrgTeamsCalls | src/teams.rs:81-121 | Listing, streaming and creating use the organization's teams; granting a permission puts the permission's text to the repository below the team `get` addresses. |
| Teams.TeamActionCalls | src/teams.rs:136-188 | Reading, editing and deleting a team use the team's uri; members are listed below it and a membership is added and removed at the same uri below that. |
| Teams.TeamPathsDistinct | src/teams.rs:136-138 | A team's uri names its number: two teams addressed by the same uri are one team. |
| Teams.ParseTeamMemberRole | src/teams.rs:205-210 | A string reads as the role whose lowercase tag it is, in both directions; only "member" and "maintainer" read. |
| Teams.ParseTeamMemberState | src/teams.rs:212-217 | A string reads as the state whose lowercase tag it is, in both directions; only "active" and "pending" read. |
| Teams.TeamMemberTags | src/teams.rs:205-217 | A role is written as its tag and read back as itself; both enums read exactly their own tags, any other string being an unknown variant. |
| Teams.TeamMemberOptionsBody | src/teams.rs:200-210 | The options are the role's tag under "role", and a server reads the same role back. |
| Teams.TeamMemberRejects | src/teams.rs:193-217 | A membership missing a field, or whose role or state is not one of its tags, does not decode. |
| Teams.TeamOptionalExactly | src/teams.rs:219-231 | Of a team's fields, only the description is an `Option`. |
| Teams.TeamFields | src/teams.rs:219-231 | A team missing its description reads it as `None`; one missing any other field does not decode. |
| Teams.TeamOptionsJsonFields | src/teams.rs:233-242 | The name is always written; description, privacy and permission only when set, in that order. |
| Teams.TeamOptionsRoundTrip | src/teams.rs:233-242 | What a server reads back from the body is the options that were sent. |
| Teams.AddRepoPermission | src/teams.rs:106-121 | A PUT of `/teams/{teamId}/repos/{org}/{repoName}` with the permission's JSON. |
| Teams.AddUser | src/teams.rs:170-181 | A PUT of `/teams/{number}/memberships/{user}` with the JSON of the team member options. |
| Teams.IterMembers | src/teams.rs:163-165 | A GET of `/teams/{number}/members` with no body. |
| Teams.ListMembers | src/teams.rs:158-160 | A GET of `/teams/{number}/members` with no body. |
| Teams.OrgTeamsCreate | src/teams.rs:93-97 | A POST of `/orgs/{org}/teams` with the JSON of the team options. |
| Teams.OrgTeamsIter | src/teams.rs:100-102 | A GET of `/orgs/{org}/teams` with no body. |
| Teams.OrgTeamsList | src/teams.rs:82-84 | A GET of `/orgs/{org}/teams` with no body. |
| Teams.RemoveUser | src/teams.rs:184-188 | A DELETE of `/teams/{number}/memberships/{user}` with no body. |
| Teams.RepoTeamsIter | src/teams.rs:57-60 | A GET of `/repos/{owner}/{repo}/teams` with no body. |
| Teams.RepoTeamsList | src/teams.rs:50-54 | A GET of `/repos/{owner}/{repo}/teams` with no body. |
| Teams.TeamDelete | src/teams.rs:153-155 | A DELETE of `/teams/{number}` with no body. |
| Teams.TeamGet | src/teams.rs:141-143 | A GET of `/teams/{number}` with no body. |
| Teams.TeamUpdate | src/teams.rs:146-150 | A PATCH of `/teams/{number}` with the JSON of the team options. |
| Users.UserRequiresAll | src/users.rs:7-27 | A user object missing any of the sixteen fields does not decode. |
| Users.AuthenticatedUserFields | src/users.rs:29-64 | The authenticated profile declares the user's fields first; a missing "name" reads as `None` while a missing "blog" fails. |
| Users.UserPaths | src/users.rs:79-90 | The account of a user, and the account of whoever the token belongs to. |
| Users.ContributorsSamePath | src/users.rs:117-127 | A page and the stream start from the same request. |
| Users.Authenticated | src/users.rs:80-82 | A GET of `/user` with no body. |
| Users.ContributorsIter | src/users.rs:124-127 | A GET of `/repos/{owner}/{repo}/contributors` with no body. |
| Users.ContributorsList | src/users.rs:118-121 | A GET of `/repos/{owner}/{repo}/contributors` with no body. |
| Users.Get | src/users.rs:84-90 | A GET of `/users/{username}` with no body. |
| Branches.BranchCalls | src/branches.rs:30-96 | Listing and streaming read the same page; a branch is read at its name, and its protection and rename are below that. |
| Branches.ProtectionKindsWellFormed | src/branches.rs:109-150 | Field names are distinct and only `dismissal_restrictions` is skipped, when `None`. |
| Branches.ProtectionRoundTrip | src/branches.rs:123-150 | Reading back the body `protection` sends gives the protection: every `None` written as `null` reads back as `None`, and the nested records come back whole. |
| Branches.ProtectionStateRoundTrip | src/branches.rs:109-121 | Reading back a written protection state gives it again. |
| Branches.ProtectionJsonFields | src/branches.rs:123-129 | A protection always writes all four keys, in declaration order, an unset one as `null`. |
| Branches.ReviewsJsonFields | src/branches.rs:137-144 | The review requirements write the dismissal restrictions only when set, and the three other keys always. |
| Branches.ProtectionFields | src/branches.rs:123-129 | A protection without `enforce_admins`, or with it `null`, does not decode; any other field missing or `null` reads as `None`. |
| Branches.ApprovingCountRange | src/branches.rs:143 | An approving review count that is negative or does not fit a `u8` fails the review requirements. |
| Branches.ProtectionStateEmpty | src/branches.rs:109-115 | An empty object is a protection state with neither field. |
| Branches.BranchNameOnly | src/branches.rs:101-107 | A branch given only its name reads with no protection flag and no protection url. |
| Branches.BranchNameRequired | src/branches.rs:101-107 | A branch without its name does not decode. |
| Branches.RenameBody | src/branches.rs:80-96 | The rename body is the one key "new_name"; reading it back gives the name. |
| Branches.Get | src/branches.rs:49-59 | A GET of `/repos/{owner}/{repo}/branches/{branch}` with no body. |
| Branches.Iter | src/branches.rs:40-46 | A GET of `/repos/{owner}/{repo}/branches` with no body. |
| Branches.List | src/branches.rs:31-37 | A GET of `/repos/{owner}/{repo}/branches` with no body. |
| Branches.RenameBranch | src/branches.rs:83-96 | A POST of `/repos/{owner}/{repo}/branches/{branch}/rename` with the JSON of the rename. |
| Branches.UpdateProtection | src/branches.rs:64-78 | A PUT of `/repos/{owner}/{repo}/branches/{branch}/protection` with the JSON of the protection. |
| Content.Path | src/content.rs:34-43 | The URI begins with the repository's contents path and the encoded location; it is exactly that when the ref is empty, and otherwise continues with "?ref=" and the ref. |
| Content.LocationIsInert | src/content.rs:34-43 | The location cannot end the path early: its encoding holds no '?' or '#', so the only query of the URI is the `ref` one. |
| Content.PathSeparatesRefs | src/content.rs:34-43 | Different refs of one location give different URIs. |
| Content.Get | src/content.rs:45-57 | `get` and `file` are both a GET of the location's path. |
| Content.Iter | src/content.rs:64-70 | The stream over a directory starts with a GET of the location's path. |
| Content.Root | src/content.rs:59-62 | `root` is the stream over the location "/". |
| Content.RootPath | src/content.rs:59-62 | The root directory is the contents URI with a trailing '/'. |
| Content.NewFileJsonFields | src/content.rs:129-136 | The body is content (unless it is empty), message, then sha (unless it is `None`). |
| Content.NewFileKeys | src/content.rs:129-136 | The message is in every body; content is there exactly when it is not empty, and sha exactly when it is given. |
| Content.Create | src/content.rs:72-81 | `create` is a PUT to the location's path, without ref, of the body holding the bytes in base64, the message and no sha. |
| Content.Update | src/content.rs:83-98 | `update` is a PUT to the location's path of the body holding the bytes in base64, the message and the sha. |
| Content.Delete | src/content.rs:100-109 | `delete` is a DELETE of the location's path carrying the body with empty content, the message and the sha. |
| Content.CreateCarriesContent | src/content.rs:72-81 | The body of a create begins with the encoding of the bytes (which decodes back to them: `DecodedContentsRoundTrip`); bytes that are empty send no content at all. |
| Content.UpdateCarriesSha | src/content.rs:83-98 | An update sends the same content as a create, and the sha besides. |
| Content.DeleteBody | src/content.rs:100-132 | A delete's body is the message and the sha, with no content. |
| Content.ParseEncoding | src/content.rs:121-127 | The only encoding that reads is "base64". |
| Content.DownloadUrlOptionality | src/content.rs:143-199 | `download_url` is the one optional field of `DirectoryItem` and `Submodule`, and `File` and `Symlink` have none. |
| Content.MissingDownloadUrl | src/content.rs:143-199 | Without a download URL a file or a symlink fails to decode, while a directory item or a submodule reads it as `None`. |
| Content.FileEncodingIsBase64 | src/content.rs:143-156 | A file whose encoding is anything but "base64" does not decode. |
| Content.DecodedContents | src/content.rs:233-280 | The text decodes exactly when, with its newlines dropped, it is strict padded base64, and then it is the encoding of the bytes it gives. |
| Content.DecodedContentsRoundTrip | src/content.rs:247-275 | Bytes base64-encoded and wrapped at any width, or with newlines put in anywhere, decode to those same bytes. |
| Content.DecodedContentsRejects | src/content.rs:255-272 | What does not decode: text whose length without newlines is not a multiple of four, and text holding a carriage return, a space or any other character outside the alphabet. |
| Content.DecodeContents | src/content.rs:112-119 | A decoded value's variant is named by the object's one "type" key; a missing "type" is a missing-field error; "file", "symlink" and "submodule" read the rest as that record; any other tag is an unknown variant. |
| Git.TreeUri | src/git.rs:30-46 | A tree request ends in "?recursive=" and a flag: "1" for a recursive listing, "0" otherwise. |
| Git.TreeRecursion | src/git.rs:37-46 | A recursive and a flat tree request of one sha go to different URIs. |
| Git.ReferencePaths | src/git.rs:58-79 | Reading and deleting a reference address the same URI, with the reference passed through unchanged. |
| Git.GitFileOptional | src/git.rs:92-104 | A tree entry may leave out its size and its url, but not its path, mode, type or sha. |
| Git.BlobContentRaw | src/git.rs:106-114 | A blob's content is read as it was sent, whatever its encoding claims: text that is not base64 at all still decodes, and a blob without a size has `None` there. |
| Git.DecodeGetReferenceResponse | src/git.rs:116-127 | A value reads as `Exact` exactly when it decodes as one reference, else as `StartWith` exactly when it is an array whose every item decodes as a reference, in order; otherwise the error says no variant matched. |
| Git.GetReferenceRoundTrip | src/git.rs:116-143 | The references GitHub sends come back out: one object as `Exact`, a list of them as `StartWith` in the order sent. |
| Git.Blob | src/git.rs:50-56 | A GET of `/repos/{owner}/{repo}/git/blobs/{sha}` with no body. |
| Git.DeleteReference | src/git.rs:73-79 | A DELETE of `/repos/{owner}/{repo}/git/refs/{reference}` with no body. |
| Git.Reference | src/git.rs:61-67 | A GET of `/repos/{owner}/{repo}/git/refs/{reference}` with no body. |
| Git.Tree | src/git.rs:37-46 | A GET of `/repos/{owner}/{repo}/git/trees/{sha}?recursive=1` when recursive and `?recursive=0` otherwise, with no body. |
| Gists.GistCalls | src/gists/mod.rs:55-112 | Starring and unstarring share a uri, as do forking and listing forks; a revision sits below the gist; only star and fork send an empty body rather than none. |
| Gists.ListUrisDefault | src/gists/mod.rs:89-95 | Without options the list uris are the bare paths. |
| Gists.ListUriSince | src/gists/mod.rs:89-142 | With since set, the list uris are the paths, '?' and the since pair. |
| Gists.UserListUriSince | src/gists/mod.rs:33-39 | A user's gists since a time: the same one pair after the user's gists. |
| Gists.Since | src/gists/mod.rs:123-130 | The options made by `since` hold exactly one parameter, "since", mapped to the timestamp. |
| Gists.ListOptionsSerialize | src/gists/mod.rs:117-142 | The default list options send nothing; `since` sends its one pair. |
| Gists.ContentJson | src/gists/mod.rs:186-191 | A content is written as its optional file name, then its text. |
| Gists.FilesContents | src/gists/mod.rs:214-217 | The files map holds each name once, in ascending order, as a map keyed by name must. |
| Gists.FilesContentsLookup | src/gists/mod.rs:214-217 | The files map holds one entry per input name, and that entry is the last text given for the name, without a file name. |
| Gists.ContentsOf | src/gists/mod.rs:214-217 | The loop inserts each pair in turn and ends with the files map of the input pairs. |
| Gists.GistOptionsJsonFields | src/gists/mod.rs:246-253 | The body: the description and the public flag when set, then the files object. |
| Gists.NewGistOptions | src/gists/mod.rs:256-271 | `GistOptions::new`: the description as given, public always set, and the files map. |
| Gists.GistOptionsBuilder.constructor | src/gists/mod.rs:209-222 | A new builder holds the files map of the input pairs, no description and no public flag. |
| Gists.GistOptionsBuilder.SetDescription | src/gists/mod.rs:224-230 | Sets the description and leaves the files and the public flag as they were. |
| Gists.GistOptionsBuilder.SetPublic | src/gists/mod.rs:232-235 | Sets the public flag and leaves the files and the description as they were. |
| Gists.GistOptionsBuilder.Build | src/gists/mod.rs:237-243 | `build`: the options as the builder holds them. |
| Gists.OneFile | src/gists/mod.rs:262-265 | One file, given as a single name and text, becomes the files object with that name and an object holding only the text. |
| Gists.NewGistExamples | src/gists/mod.rs:296-311 | The request examples of `new`, without and with a description, on one file. |
| Gists.BuilderGistExamples | src/gists/mod.rs:313-337 | The request examples of the builder, bare, with a description, and with a description and public false, on one file. |
| Gists.GistOptionalExactly | src/gists/mod.rs:145-184 | Which fields of the gist records are optional, and the rename of the content type. |
| Gists.GistFields | src/gists/mod.rs:156-175 | A gist missing a field other than description, owner or user does not decode; one missing those reads them as `None`. |
| Gists.GistFileFields | src/gists/mod.rs:145-154 | A gist file missing content, truncated or language reads them as `None`; one missing any other field does not decode. |
| Gists.GistForkRequired | src/gists/mod.rs:177-184 | A fork missing any field does not decode. |
| Gists.Create | src/gists/mod.rs:105-107 | A POST of `/gists` with the JSON of the gist options. |
| Gists.Delete | src/gists/mod.rs:77-79 | A DELETE of `/gists/{id}` with no body. |
| Gists.Edit | src/gists/mod.rs:109-112 | A PATCH of `/gists/{id}` with the JSON of the gist options. |
| Gists.Fork | src/gists/mod.rs:68-71 | A POST of `/gists/{id}/forks` with an empty body. |
| Gists.Forks | src/gists/mod.rs:73-75 | A GET of `/gists/{id}/forks` with no body. |
| Gists.Get | src/gists/mod.rs:81-83 | A GET of `/gists/{id}` with no body. |
| Gists.GetRev | src/gists/mod.rs:85-87 | A GET of `/gists/{id}/{sha}` with no body. |
| Gists.List | src/gists/mod.rs:89-95 | A GET of `/gists` with no body; when the options serialize to a query, a '?' and that query follow the path. |
| Gists.Public | src/gists/mod.rs:97-99 | A GET of `/gists/public` with no body. |
| Gists.Star | src/gists/mod.rs:59-62 | A PUT of `/gists/{id}/star` with an empty body. |
| Gists.Starred | src/gists/mod.rs:101-103 | A GET of `/gists/starred` with no body. |
| Gists.Unstar | src/gists/mod.rs:64-66 | A DELETE of `/gists/{id}/star` with no body. |
| Gists.UserList | src/gists/mod.rs:33-39 | A GET of `/users/{owner}/gists` with no body; when the options serialize to a query, a '?' and that query follow the path. |
| Hooks.ParseContentType | src/hooks/mod.rs:13-39 | A string reads as the content type whose text it is, in both directions. |
| Hooks.DefaultContentType | src/hooks/mod.rs:25-29 | The default content type is the one written "form". |
| Hooks.ContentTypeCodec | src/hooks/mod.rs:13-39 | The serde form of each content type is its display text, and it reads back. |
| Hooks.HookCalls | src/hooks/mod.rs:65-95 | Hooks are listed and created at one uri; one hook is edited and deleted below it by id, and only the delete sends no body. |
| Hooks.EncodeConfig | src/hooks/mod.rs:106 | A config map is written as the object of its entries, in the same order. |
| Hooks.SetConfig | src/hooks/mod.rs:193-199 | The config stays a map with each key once, in ascending order, as a `BTreeMap` is kept. |
| Hooks.SetConfigLookup | src/hooks/mod.rs:193-199 | A config write stores its value under its name, leaves every other name as it was, and a second write of a name replaces the first. |
| Hooks.HookCreateOptionsJsonFields | src/hooks/mod.rs:103-109 | The body: the name, the config as an object of its entries, the events in order, and the active flag. |
| Hooks.HookCreateOptionsBuilder.constructor | src/hooks/mod.rs:115-141 | `HookCreateOptions::builder(name)`: active, with no config and no events. |
| Hooks.HookCreateOptionsBuilder.Web | src/hooks/mod.rs:122-125 | `web()` is a fresh builder for the hook named "web", active, with no config and no events. |
| Hooks.HookCreateOptionsBuilder.SetActive | src/hooks/mod.rs:143-146 | Sets the active flag and leaves the rest as it was. |
| Hooks.HookCreateOptionsBuilder.SetEvents | src/hooks/mod.rs:148-157 | Replaces the event list and leaves the rest as it was. |
| Hooks.HookCreateOptionsBuilder.ConfigEntry | src/hooks/mod.rs:193-199 | Inserts the value under the name in the config map and leaves the rest as it was. |
| Hooks.HookCreateOptionsBuilder.ConfigStrEntry | src/hooks/mod.rs:184-191 | Inserts the string value under the name in the config map. |
| Hooks.HookCreateOptionsBuilder.SetUrl | src/hooks/mod.rs:159-165 | Inserts the url under "url" in the config map. |
| Hooks.HookCreateOptionsBuilder.SetContentType | src/hooks/mod.rs:167-172 | Inserts the content type's text under "content_type" in the config map. |
| Hooks.HookCreateOptionsBuilder.SetSecret | src/hooks/mod.rs:174-182 | Inserts the secret under "secret" in the config map. |
| Hooks.HookCreateOptionsBuilder.Build | src/hooks/mod.rs:201-208 | The built options are exactly the builder's: name, config (its keys in ascending order), events and active flag. |
| Hooks.WebHookConfig | src/hooks/mod.rs:159-199 | Setting the url, then the content type, then the secret leaves the config in key order: content_type, secret, url. |
| Hooks.WebHookBody | src/hooks/mod.rs:103-109 | The body of a web hook with a url, the json content type, a secret and two events. |
| Hooks.WebHookExample | src/hooks/mod.rs:122-208 | A web hook built with a url, the json content type, a secret and two events: the config object lists its keys in ascending order, whatever order they were set in. |
| Hooks.HookEditOptionsJsonFields | src/hooks/mod.rs:214-221 | The body: the config object, the three event lists in order, and the active flag. |
| Hooks.HookEditOptionsBuilder.constructor | src/hooks/mod.rs:223-231 | A new edit builder holds an empty config, no events and active false. |
| Hooks.HookEditOptionsBuilder.SetActive | src/hooks/mod.rs:234-237 | Sets the active flag and leaves the rest as it was. |
| Hooks.HookEditOptionsBuilder.SetEvents | src/hooks/mod.rs:239-248 | Replaces the event list and leaves the rest as it was. |
| Hooks.HookEditOptionsBuilder.ConfigEntry | src/hooks/mod.rs:284-290 | Inserts the value under the name in the config map and leaves the rest as it was. |
| Hooks.HookEditOptionsBuilder.ConfigStrEntry | src/hooks/mod.rs:275-282 | Inserts the string value under the name in the config map. |
| Hooks.HookEditOptionsBuilder.SetUrl | src/hooks/mod.rs:250-256 | Inserts the url under "url" in the config map. |
| Hooks.HookEditOptionsBuilder.SetContentType | src/hooks/mod.rs:258-263 | Inserts the content type's text under "content_type" in the config map. |
| Hooks.HookEditOptionsBuilder.SetSecret | src/hooks/mod.rs:265-273 | Inserts the secret under "secret" in the config map. |
| Hooks.HookEditOptionsBuilder.Build | src/hooks/mod.rs:292-300 | The built options are exactly the builder's, config included; they always carry empty add_events and remove_events. |
| Hooks.DeactivateExample | src/hooks/mod.rs:214-300 | An edit that only deactivates a hook still sends an empty config and three empty lists. |
| Hooks.HookRequired | src/hooks/mod.rs:303-315 | A hook missing any field does not decode. |
| Hooks.HookConfigRead | src/hooks/mod.rs:303-315 | A decoded hook's config is the config the server sent, with its object keys in ascending order and one entry per key. |
| Hooks.ConfigString | src/hooks/mod.rs:317-327 | The config value is returned exactly when the pointer "/name" finds a JSON string there. |
| Hooks.ConfigStringPlain | src/hooks/mod.rs:317-327 | A plain name (no '/' and no '~') reads the config member of that name when the config is an object, and nothing when the config is a string, number, boolean or null. |
| Hooks.ConfigReadsWhatWasWritten | src/hooks/mod.rs:317-335 | A hook whose config is what a builder wrote reads back the url, content type and secret the builder set, and a value that is not a string reads as nothing. |
| Hooks.UrlAndContentType | src/hooks/mod.rs:329-335 | `url()` and `content_type()` read the "url" and "content_type" members of an object config. |
| Hooks.ConfigValue | src/hooks/mod.rs:318-320 | For a name without '/' or '~': the member of that name when the config is an object, and nothing when the config is a string, number, boolean or null. |
| Hooks.Create | src/hooks/mod.rs:76-81 | A POST of `/repos/{owner}/{repo}/hooks` with the JSON of the hook create options. |
| Hooks.Delete | src/hooks/mod.rs:92-95 | A DELETE of `/repos/{owner}/{repo}/hooks/{id}` with no body. |
| Hooks.Edit | src/hooks/mod.rs:84-89 | A PATCH of `/repos/{owner}/{repo}/hooks/{id}` with the JSON of the hook edit options. |
| Hooks.HookContentType | src/hooks/mod.rs:333-335 | With an object config, the string under "content_type" when it is present and a string, and nothing otherwise; nothing for a config that is neither an object nor an array. |
| Hooks.List | src/hooks/mod.rs:66-69 | A GET of `/repos/{owner}/{repo}/hooks` with no body. |
| Hooks.Url | src/hooks/mod.rs:329-331 | With an object config, the string under "url" when it is present and a string, and nothing otherwise; nothing for a config that is neither an object nor an array. |
| HttpCache.HexDigit | src/http_cache.rs:196-199 | Each digit is a lowercase hexadecimal digit. |
| HttpCache.Hex | src/http_cache.rs:196-199 | The text has exactly the requested width and is made only of lowercase hexadecimal digits. |
| HttpCache.HexRoundTrip | src/http_cache.rs:196-199 | The digits spell the number back whenever it fits in the width. |
| HttpCache.PaddedHex | src/http_cache.rs:187-199 | Sixteen lowercase hexadecimal digits whose value is the number. |
| HttpCache.PaddedHexInjective | src/http_cache.rs:187-199 | Different numbers get different names. |
| HttpCache.PaddedHexExamples | src/http_cache.rs:187-195 | The two documented values: 0 gives sixteen '0's and `u64::MAX` gives sixteen 'f's. |
| HttpCache.Named | src/http_cache.rs:142-154 | Path components never include an empty or a "." piece. |
| HttpCache.Stem | src/http_cache.rs:152 | The stem is a prefix of the file name. |
| HttpCache.Hash1 | src/http_cache.rs:182-185 | Whatever the hasher gives, the name is sixteen lowercase hexadecimal digits. |
| HttpCache.CachePath | src/http_cache.rs:142-154 | Pushing v1, the scheme, the authority, the path and the query's hash, then setting the extension, gives the path the cache-path function describes. |
| HttpCache.PushPlain | src/http_cache.rs:145-147 | Pushing a plain name appends it as one component. |
| HttpCache.StemOfDotless | src/http_cache.rs:152 | A stem without a '.' is the whole name. |
| HttpCache.HexIsPlain | src/http_cache.rs:150 | The query's sixteen-digit hash is one component with no '.' in it. |
| HttpCache.NamedLast | src/http_cache.rs:149-152 | A dotless component pushed last takes the extension after its whole name. |
| HttpCache.PushBase | src/http_cache.rs:144-148 | The part of the path before the query's hash and the extension is dir/v1/scheme/authority followed by the URI path's components. |
| HttpCache.CachePathShape | src/http_cache.rs:121-154 | Where a response is kept: under dir/v1/scheme/authority/path. With a query the file is named by the query's hash and the extension; without one the last path component takes the extension. |
| HttpCache.QueriesShareDirectory | src/http_cache.rs:132-151 | URIs that differ only in their query are kept side by side in one directory. |
| HttpCache.ComponentsOfNames | src/http_cache.rs:148 | A path of three plain names splits into exactly those names, in order. |
| HttpCache.CachePathExample | src/http_cache.rs:128-131 | The documented example without a query: ".../users/dwijnand/repos" is kept as ".../v1/https/api.github.com/users/dwijnand/repos.json". |
| HttpCache.ExampleComponents | src/http_cache.rs:128-131 | The example's path splits into its three names below the scheme and authority. |
| HttpCache.ExamplePath | src/http_cache.rs:128-148 | The example's path, after its leading '/', is the three names. |
| HttpCache.ExampleExtension | src/http_cache.rs:128-152 | The last name, without a '.', gets the extension appended. |
| HttpCache.PushNamed | src/http_cache.rs:144-150 | Pushing onto a path of non-empty names keeps every name non-empty. |
| HttpCache.PushedPathNamed | src/http_cache.rs:144-151 | Under a root of non-empty names, the pushed path has only non-empty names. |
| HttpCache.StemOfExtended | src/http_cache.rs:152 | The stem of a name just given a dotless extension is the name it was given to. |
| HttpCache.StemNotEmpty | src/http_cache.rs:152 | A stem is never empty when the name is not. |
| HttpCache.ReExtend | src/http_cache.rs:88-98 | Setting a second extension replaces the first. |
| HttpCache.CachePathReExtend | src/http_cache.rs:88-112 | Changing the extension of the body's path gives the path `cache_path` builds for the new extension, which is what the lookups read. |
| HttpCache.ReadFile | src/http_cache.rs:156-159 | The read succeeds exactly when the file exists and then gives its contents; a missing file is an I/O error of kind NotFound. |
| HttpCache.NoCacheResponse | src/http_cache.rs:53-56 | Caching with `NoCache` always succeeds. |
| HttpCache.NoRead | src/http_cache.rs:161-163 | The result is an I/O error of kind NotFound carrying the given text. |
| HttpCache.NoCacheLookupEtag | src/http_cache.rs:57-59 | `NoCache` never finds an etag: an I/O error of kind NotFound. |
| HttpCache.NoCacheLookupBody | src/http_cache.rs:60-62 | `NoCache` never finds a body: an I/O error of kind NotFound. |
| HttpCache.NoCacheLookupNextLink | src/http_cache.rs:63-65 | `NoCache` never finds a next link: an I/O error of kind NotFound. |
| HttpCache.FileBasedCache.constructor | src/http_cache.rs:73-78 | Keeps the root and the files as given; nothing is written. |
| HttpCache.FileBasedCache.CacheResponse | src/http_cache.rs:80-101 | Succeeds, and the new files are the old ones with the body under the "json" path, the etag under the "etag" path and, when given, the next link under the "next_link" path. |
| HttpCache.FileBasedCache.LookupNextLink | src/http_cache.rs:111-118 | A missing next-link file is no next link, never an error. |
| HttpCache.ExtensionsApart | src/http_cache.rs:88-98 | Two different extensions name two different files, when there is a file name to put them on. |
| HttpCache.CachedReadsBack | src/http_cache.rs:80-118 | After a response is cached, the body and the etag read back, and so does the next link when one was given; without one, whatever next link was cached before is still there. |
| HttpCache.NoFileNameCollides | src/http_cache.rs:88-98 | With no file name to put an extension on (a URI path ending in ".."), the body, the etag and the next link share one file, so the body reads back as the etag. |
| Issues.ParseSort | src/issues/mod.rs:47-68 | Reads a name back to the one sort whose display text it is, and to nothing otherwise. |
| Issues.DefaultSort | src/issues/mod.rs:70-74 | The default sort is the one displayed as "created". |
| Issues.IssuePaths | src/issues/mod.rs:99-137 | An issue's labels live below the issue's own URI, which lies below the repository's issues; removing one label appends its name, clearing them all uses the bare path; add posts, set puts and clear deletes. |
| Issues.ListUri | src/issues/mod.rs:226-241 | A listing without options requests the bare path; with options, the path, a '?' and the encoded options; creating posts to that same bare path. |
| Issues.LabelsQuery | src/issues/mod.rs:323-336 | Sent alone, labels made of safe characters appear as `labels=` and the names joined by an encoded comma. |
| Issues.IssueListOptionsBuilder.constructor | src/issues/mod.rs:272-274 | No option set. |
| Issues.IssueListOptionsBuilder.SetState | src/issues/mod.rs:276-279 | Sets the state's name under "state", replacing any earlier value, and leaves the other options as they were. |
| Issues.IssueListOptionsBuilder.SetSort | src/issues/mod.rs:281-284 | Sets the sort's name under "sort", replacing any earlier value, and leaves the other options as they were. |
| Issues.IssueListOptionsBuilder.Asc | src/issues/mod.rs:286-288 | Sets "direction" to "asc" and leaves the other options as they were. |
| Issues.IssueListOptionsBuilder.Desc | src/issues/mod.rs:290-292 | Sets "direction" to "desc" and leaves the other options as they were. |
| Issues.IssueListOptionsBuilder.Direction | src/issues/mod.rs:294-297 | Sets the direction's name under "direction" and leaves the other options as they were. |
| Issues.IssueListOptionsBuilder.SetAssignee | src/issues/mod.rs:299-305 | Sets the login under "assignee", as given, and leaves the other options as they were. |
| Issues.IssueListOptionsBuilder.SetCreator | src/issues/mod.rs:307-313 | Sets the login under "creator", as given, and leaves the other options as they were. |
| Issues.IssueListOptionsBuilder.SetMentioned | src/issues/mod.rs:315-321 | Sets the login under "mentioned", as given, and leaves the other options as they were. |
| Issues.IssueListOptionsBuilder.SetLabels | src/issues/mod.rs:323-336 | Sets the names joined by "," under "labels", in the order given, and leaves the other options as they were. |
| Issues.IssueListOptionsBuilder.SetSince | src/issues/mod.rs:338-344 | Sets the timestamp under "since", as given, and leaves the other options as they were. |
| Issues.IssueListOptionsBuilder.Build | src/issues/mod.rs:346-348 | The built options are exactly the builder's options. |
| Issues.EmptyListOptions | src/issues/mod.rs:422-432 | A builder with nothing set serializes to `None`. |
| Issues.ClosedListOptions | src/issues/mod.rs:433-436 | A builder with only the closed state set serializes to "state=closed". |
| Issues.LabelsListOptions | src/issues/mod.rs:437-442 | A builder with only the labels "foo" and "bar" set serializes to "labels=foo%2Cbar". |
| Issues.Milestone | src/issues/mod.rs:357-358 | The body carries a milestone exactly when one was given, as its `u64` value. |
| Issues.NewIssueOptions | src/issues/mod.rs:363-389 | The options hold the fields as given, the labels in their order. |
| Issues.IssueOptionsJsonFields | src/issues/mod.rs:351-361 | The body lists title, body, assignee, milestone and labels in that order, leaving out the three optional fields when `None` and always writing the labels as an array of their names, in order, even when there are none. |
| Issues.IssueOptionsSlots | src/issues/mod.rs:351-361 | The entry each field of the body writes. |
| Issues.IssueOptionsRoundTrip | src/issues/mod.rs:351-361 | What a server reads back from the body is the options that were sent. |
| Issues.IssueOptional | src/issues/mod.rs:390-410 | An issue without a body, a user or labels does not decode, while a missing assignee or closing time reads as `None`. |
| Issues.AddLabels | src/issues/mod.rs:110-115 | A POST of `/repos/{owner}/{repo}/issues/{number}/labels` with the label names as a JSON array. |
| Issues.ClearLabels | src/issues/mod.rs:133-135 | A DELETE of `/repos/{owner}/{repo}/issues/{number}/labels` with no body. |
| Issues.Create | src/issues/mod.rs:226-229 | A POST of `/repos/{owner}/{repo}/issues` with the JSON of the issue options. |
| Issues.Edit | src/issues/mod.rs:181-184 | A PATCH of `/repos/{owner}/{repo}/issues/{number}` with the JSON of the issue options. |
| Issues.Get | src/issues/mod.rs:222-224 | The handle keeps the number, and its URI is the repository's issues URI, '/' and the number. |
| Issues.List | src/issues/mod.rs:231-237 | A GET of `/repos/{owner}/{repo}/issues` with no body; when the options serialize to a query, a '?' and that query follow the path. |
| Issues.RemoveLabel | src/issues/mod.rs:118-120 | A DELETE of `/repos/{owner}/{repo}/issues/{number}/labels/{name}` with no body. |
| Issues.SetLabels | src/issues/mod.rs:125-130 | A PUT of `/repos/{owner}/{repo}/issues/{number}/labels` with the label names as a JSON array. |
| Pulls.ParseSort | src/pulls/mod.rs:22-45 | Reads a name back to the one sort whose display text it is, and to nothing otherwise. |
| Pulls.DefaultSort | src/pulls/mod.rs:47-51 | The default sort is the one displayed as "created". |
| Pulls.PullCalls | src/pulls/mod.rs:79-130 | A pull request lives below its repository's pulls, its files below it; opening and closing are edits of its own URI whose body holds only the new state. |
| Pulls.ListUri | src/pulls/mod.rs:206-226 | A page and the stream start from the same request: the bare path without options, the path, '?' and the encoded options with them. |
| Pulls.PullEditOptionsJsonFields | src/pulls/mod.rs:318-327 | The body holds exactly the fields that are set, in the order title, body, state. |
| Pulls.PullEditOptionsRoundTrip | src/pulls/mod.rs:318-327 | What a server reads back from the body is the options that were sent. |
| Pulls.PullEditOptionsBuilder.constructor | src/pulls/mod.rs:343-345 | Every field starts as `None`. |
| Pulls.PullEditOptionsBuilder.SetTitle | src/pulls/mod.rs:283-290 | Sets the title and leaves the other fields as they were. |
| Pulls.PullEditOptionsBuilder.SetBody | src/pulls/mod.rs:292-299 | Sets the body and leaves the other fields as they were. |
| Pulls.PullEditOptionsBuilder.SetState | src/pulls/mod.rs:301-308 | Sets the state and leaves the other fields as they were. |
| Pulls.PullEditOptionsBuilder.Build | src/pulls/mod.rs:310-316 | The built options are exactly the builder's options. |
| Pulls.EditExamples | src/pulls/mod.rs:471-491 | The three bodies of the edit examples, built through the builder: `{"title":"test"}`, `{"title":"test","body":"desc"}` and `{"state":"closed"}`. |
| Pulls.PullOptionsJsonFields | src/pulls/mod.rs:348-355 | Title, head and base are always written, in that order; the body follows only when set. |
| Pulls.PullListOptionsBuilder.constructor | src/pulls/mod.rs:396-414 | No option set. |
| Pulls.PullListOptionsBuilder.SetState | src/pulls/mod.rs:417-420 | Sets the state's name under "state", replacing any earlier value, and leaves the other options as they were. |
| Pulls.PullListOptionsBuilder.SetSort | src/pulls/mod.rs:422-425 | Sets the issue sort's name under "sort" and leaves the other options as they were. |
| Pulls.PullListOptionsBuilder.Direction | src/pulls/mod.rs:427-430 | Sets the direction's name under "direction" and leaves the other options as they were. |
| Pulls.PullListOptionsBuilder.Build | src/pulls/mod.rs:432-434 | The built options are exactly the builder's options. |
| Pulls.EmptyListOptions | src/pulls/mod.rs:452-469 | A listing builder with nothing set serializes to `None`. |
| Pulls.ClosedListOptions | src/pulls/mod.rs:452-469 | A listing builder with only the closed state set serializes to "state=closed". |
| Pulls.CommitRequired | src/pulls/mod.rs:269-276 | Every field of a commit is required; a commit missing any of them, "ref" included, does not decode. |
| Pulls.PullFieldsOptionalLow | src/pulls/mod.rs:230-267 | In the first half of a pull request's fields, every `Option` field is one of the twelve optional names. |
| Pulls.PullFieldsOptionalHigh | src/pulls/mod.rs:230-267 | In the second half of a pull request's fields, every `Option` field is one of the twelve optional names. |
| Pulls.PullOptionalExactly | src/pulls/mod.rs:230-267 | Exactly twelve fields of `Pull` are optional: the body, the closing and merging times, the assignee, the merge commit, mergeability, who merged and the five counts. |
| Pulls.PullRequired | src/pulls/mod.rs:230-267 | A pull request missing any other field does not decode. |
| Pulls.PullOptional | src/pulls/mod.rs:247-260 | A pull request without a body, merge time or merger reads them as `None`. |
| Pulls.FileDiffOptionalExactly | src/pulls/mod.rs:374-388 | Only sha and patch of a file diff are optional. |
| Pulls.FileDiffFields | src/pulls/mod.rs:374-388 | A file diff without sha or patch reads them as `None`; one without any other field does not decode. |
| Pulls.Close | src/pulls/mod.rs:117-119 | A PATCH of `/repos/{owner}/{repo}/pulls/{number}` whose body is `{"state":"closed"}` and nothing else. |
| Pulls.Create | src/pulls/mod.rs:201-203 | A POST of `/repos/{owner}/{repo}/pulls` with the JSON of the pull options. |
| Pulls.Edit | src/pulls/mod.rs:122-124 | A PATCH of `/repos/{owner}/{repo}/pulls/{number}` with the JSON of the pull edit options. |
| Pulls.Files | src/pulls/mod.rs:127-129 | A GET of `/repos/{owner}/{repo}/pulls/{number}/files` with no body. |
| Pulls.Get | src/pulls/mod.rs:87-89 | A GET of `/repos/{owner}/{repo}/pulls/{number}` with no body. |
| Pulls.Iter | src/pulls/mod.rs:215-225 | A GET of `/repos/{owner}/{repo}/pulls` with no body; when the options serialize to a query, a '?' and that query follow the path. |
| Pulls.List | src/pulls/mod.rs:206-212 | A GET of `/repos/{owner}/{repo}/pulls` with no body; when the options serialize to a query, a '?' and that query follow the path. |
| Pulls.Open | src/pulls/mod.rs:112-114 | A PATCH of `/repos/{owner}/{repo}/pulls/{number}` whose body is `{"state":"open"}` and nothing else. |
| Deployments.DeploymentPaths | src/deployments/mod.rs:52-68 | A deployment's statuses live below the deployment, by id; listing and creating share one URI on each level, listing without options uses the bare path, and creating posts. |
| Deployments.ContextsEntry | src/deployments/mod.rs:143-144 | The required contexts write at most one entry. |
| Deployments.DeploymentOptionsSlots | src/deployments/mod.rs:135-152 | The entry each field of the body writes. |
| Deployments.DeploymentOptionsTail | src/deployments/mod.rs:145-151 | The entries of the body from the payload on. |
| Deployments.DeploymentOptionsHead | src/deployments/mod.rs:136-144 | The entries of the body up to the required contexts, then the rest. |
| Deployments.DeploymentOptionsJsonFields | src/deployments/mod.rs:135-152 | The body lists ref, task, auto_merge, required_contexts, payload, environment and description in that order, leaving out each one that is `None`. |
| Deployments.DeploymentOptionsBuilder.constructor | src/deployments/mod.rs:154-174 | The options start from the reference with every other field `None`. |
| Deployments.DeploymentOptionsBuilder.SetTask | src/deployments/mod.rs:176-182 | Sets the task and leaves the other fields as they were. |
| Deployments.DeploymentOptionsBuilder.SetAutoMerge | src/deployments/mod.rs:184-187 | Sets auto_merge and leaves the other fields as they were. |
| Deployments.DeploymentOptionsBuilder.SetRequiredContexts | src/deployments/mod.rs:189-196 | Sets the contexts, in the order given, and leaves the other fields as they were. |
| Deployments.DeploymentOptionsBuilder.SetPayload | src/deployments/mod.rs:198-201 | Sets the payload to the JSON text of the value and leaves the other fields as they were. |
| Deployments.DeploymentOptionsBuilder.SetEnvironment | src/deployments/mod.rs:203-209 | Sets the environment and leaves the other fields as they were. |
| Deployments.DeploymentOptionsBuilder.SetDescription | src/deployments/mod.rs:211-217 | Sets the description and leaves the other fields as they were. |
| Deployments.DeploymentOptionsBuilder.Build | src/deployments/mod.rs:219-229 | The built options are exactly the builder's options. |
| Deployments.ExamplePayloadText | src/deployments/mod.rs:381-401 | A map from "room_id" to "123456" and "user" to "atmos", in key order, is written as the JSON text `{"room_id":"123456","user":"atmos"}`. |
| Deployments.BareDeploymentRequest | src/deployments/mod.rs:385-388 | A builder given only the reference "test" writes `{"ref":"test"}`. |
| Deployments.TaskDeploymentRequest | src/deployments/mod.rs:389-392 | Adding the task "launchit" writes `{"ref":"test","task":"launchit"}`. |
| Deployments.PayloadDeploymentRequest | src/deployments/mod.rs:393-405 | A description and a payload: the payload is written before the description, as a string holding the payload's JSON text. |
| Deployments.DeploymentStatusOptionsJsonFields | src/deployments/mod.rs:281-288 | The body lists the state, then target_url and description when they are set. |
| Deployments.DeploymentStatusOptionsRoundTrip | src/deployments/mod.rs:281-288 | What a server reads back from the body is the options that were sent. |
| Deployments.DeploymentStatusOptionsBuilder.constructor | src/deployments/mod.rs:249-254 | The options start from the state with target_url and description `None`. |
| Deployments.DeploymentStatusOptionsBuilder.SetTargetUrl | src/deployments/mod.rs:256-262 | Sets the target URL and leaves the other fields as they were. |
| Deployments.DeploymentStatusOptionsBuilder.SetDescription | src/deployments/mod.rs:264-270 | Sets the description and leaves the other fields as they were. |
| Deployments.DeploymentStatusOptionsBuilder.Build | src/deployments/mod.rs:272-278 | The built options are exactly the builder's options. |
| Deployments.DeploymentStatusRequestExamples | src/deployments/mod.rs:410-432 | The three documented status bodies, built through the builder: the state alone, then with target_url, then with target_url and description, in that order. |
| Deployments.DeploymentListOptionsBuilder.constructor | src/deployments/mod.rs:301-321 | No option set. |
| Deployments.DeploymentListOptionsBuilder.SetSha | src/deployments/mod.rs:324-330 | Sets the sha under "sha" and leaves the other options as they were. |
| Deployments.DeploymentListOptionsBuilder.SetCommitRef | src/deployments/mod.rs:332-338 | Sets the reference under "ref" and leaves the other options as they were. |
| Deployments.DeploymentListOptionsBuilder.SetTask | src/deployments/mod.rs:340-346 | Sets the task under "task" and leaves the other options as they were. |
| Deployments.DeploymentListOptionsBuilder.SetEnvironment | src/deployments/mod.rs:348-354 | Sets the environment under "environment" and leaves the other options as they were. |
| Deployments.DeploymentListOptionsBuilder.Build | src/deployments/mod.rs:356-360 | The built options are exactly the builder's options. |
| Deployments.ListOptionsExamples | src/deployments/mod.rs:307-317 | A listing builder with nothing set serializes to `None`; one with only the environment "production" to "environment=production". |
| Deployments.DeploymentFields | src/deployments/mod.rs:116-133 | Only the description of a deployment may be missing: it reads as `None`, and a deployment missing any other field does not decode. |
| Deployments.DeploymentPayloadAny | src/deployments/mod.rs:124 | Whatever JSON value the payload holds, `null` included, it is accepted and kept as read. |
| Deployments.DeploymentStatusFields | src/deployments/mod.rs:232-244 | A deployment status missing target_url or description reads them as `None`; one with a state that is not a commit status tag does not decode. |
| Deployments.Create | src/deployments/mod.rs:99-101 | A POST of `/repos/{owner}/{repo}/deployments` with the JSON of the deployment options. |
| Deployments.CreateStatus | src/deployments/mod.rs:66-68 | A POST of `/repos/{owner}/{repo}/deployments/{id}/statuses` with the JSON of the deployment status options. |
| Deployments.List | src/deployments/mod.rs:90-96 | A GET of `/repos/{owner}/{repo}/deployments` with no body; when the options serialize to a query, a '?' and that query follow the path. |
| Deployments.ListStatuses | src/deployments/mod.rs:60-62 | A GET of `/repos/{owner}/{repo}/deployments/{id}/statuses` with no body. |
| Notifications.MarkAsReadUri | src/notifications/mod.rs:66-84 | Without a time the whole of the notifications is marked; with one, the time goes in the query under "last_read_at", form-encoded; either way by a PUT with an empty body. |
| Notifications.LastReadAtPair | src/notifications/mod.rs:77-79 | The name of the parameter needs no escaping, so the pair is the name, '=' and the encoded time. |
| Notifications.MarkAsReadForRepoUri | src/notifications/mod.rs:86-109 | The repository variant is the same request below the repository. |
| Notifications.ThreadCalls | src/notifications/mod.rs:111-189 | A thread is read and marked at its own URI; its subscription is read, set, ignored and deleted at one URI below it, subscribing putting `{"subscribed": true}` and unsubscribing `{"ignored": true}`. |
| Notifications.ListUri | src/notifications/mod.rs:29-39 | The bare path when no option is set, otherwise the path, '?' and the serialized options. |
| Notifications.ListForRepoUri | src/notifications/mod.rs:41-64 | The repository's listing is the same, below the repository. |
| Notifications.ThreadListOptionsBuilder.constructor | src/notifications/mod.rs:212-231 | No option set. |
| Notifications.ThreadListOptionsBuilder.All | src/notifications/mod.rs:234-238 | Sets "true" or "false" under "all", replacing any earlier value, and leaves the other options as they were. |
| Notifications.ThreadListOptionsBuilder.Participating | src/notifications/mod.rs:240-245 | Sets "true" or "false" under "participating" and leaves the other options as they were. |
| Notifications.ThreadListOptionsBuilder.Since | src/notifications/mod.rs:247-254 | Sets the time under "since", as given, and leaves the other options as they were. |
| Notifications.ThreadListOptionsBuilder.Before | src/notifications/mod.rs:256-263 | Sets the time under "before", as given, and leaves the other options as they were. |
| Notifications.ThreadListOptionsBuilder.Build | src/notifications/mod.rs:265-269 | The built options are exactly the builder's options. |
| Notifications.ListOptionsExamples | src/notifications/mod.rs:217-238 | A builder left empty lists every notification with the bare path; `all` set to false and then true serializes to "all=true". |
| Notifications.NotificationOptionalExactly | src/notifications/mod.rs:194-205 | Only a thread's last read time is optional; the subject's kind is read from "type". |
| Notifications.ThreadFields | src/notifications/mod.rs:194-205 | A thread missing its last read time reads it as `None`; one missing any other field does not decode. |
| Notifications.RepositoryIdRange | src/notifications/mod.rs:281-283 | A repository whose id is negative or does not fit 32 bits does not decode. |
| Notifications.SubscriptionRequired | src/notifications/mod.rs:291-299 | A subscription missing any field does not decode. |
| Notifications.DeleteSubscription | src/notifications/mod.rs:181-189 | A DELETE of `/notifications/threads/{id}/subscription` with no body. |
| Notifications.GetSubscription | src/notifications/mod.rs:139-147 | A GET of `/notifications/threads/{id}/subscription` with no body. |
| Notifications.GetThread | src/notifications/mod.rs:115-121 | A GET of `/notifications/threads/{id}` with no body. |
| Notifications.List | src/notifications/mod.rs:33-39 | A GET of `/notifications` with no body; when the options serialize to a query, a '?' and that query follow the path. |
| Notifications.ListForRepo | src/notifications/mod.rs:45-64 | A GET of `/repos/{owner}/{repo}/notifications` with no body; when the options serialize to a query, a '?' and that query follow the path. |
| Notifications.MarkAsRead | src/notifications/mod.rs:70-84 | A PUT with an empty body of `/notifications`, or, given a time, of `/notifications?` and the form-encoded pair `last_read_at={time}`. |
| Notifications.MarkAsReadForRepo | src/notifications/mod.rs:90-109 | A PUT with an empty body of `/repos/{owner}/{repo}/notifications`, or, given a time, of that path, '?' and the form-encoded pair `last_read_at={time}`. |
| Notifications.MarkThreadAsRead | src/notifications/mod.rs:127-133 | A PATCH of `/notifications/threads/{id}` with an empty body. |
| Notifications.Subscribe | src/notifications/mod.rs:153-161 | A PUT of `/notifications/threads/{id}/subscription` with `{"subscribed":true}`. |
| Notifications.Unsubscribe | src/notifications/mod.rs:167-175 | A PUT of `/notifications/threads/{id}/subscription` with `{"ignored":true}`. |
| Releases.Get | src/releases/mod.rs:137-142 | The release operations address the same repository and the given id. |
| Releases.Assets | src/releases/mod.rs:87-92 | The asset operations address the release's repository and id. |
| Releases.ReleaseCalls | src/releases/mod.rs:113-135 | A release is created and listed at the releases; it is edited, deleted and read at its id below them, all three at one URI. |
| Releases.AssetCalls | src/releases/mod.rs:31-53 | A release's assets are listed below the release, and one asset is read and deleted at its id below them. |
| Releases.ReleaseOptionsJsonFields | src/releases/mod.rs:181-195 | The options write "tag_name", then each set field under its own key, in declaration order; the commit-ish goes under "target_commitish". |
| Releases.ReleaseOptionsRoundTrip | src/releases/mod.rs:181-195 | What a server reads back from the body is the options that were sent. |
| Releases.ReleaseOptionsBuilder.constructor | src/releases/mod.rs:208-212 | The tag, and nothing else set. |
| Releases.ReleaseOptionsBuilder.Commitish | src/releases/mod.rs:214-219 | Sets the commit-ish and leaves the other fields as they were. |
| Releases.ReleaseOptionsBuilder.Name | src/releases/mod.rs:221-226 | Sets the name and leaves the other fields as they were. |
| Releases.ReleaseOptionsBuilder.Body | src/releases/mod.rs:228-233 | Sets the body and leaves the other fields as they were. |
| Releases.ReleaseOptionsBuilder.Draft | src/releases/mod.rs:235-238 | Sets the draft flag and leaves the other fields as they were. |
| Releases.ReleaseOptionsBuilder.Prerelease | src/releases/mod.rs:240-243 | Sets the prerelease flag and leaves the other fields as they were. |
| Releases.ReleaseOptionsBuilder.Build | src/releases/mod.rs:245-276 | Every field passed through, the commit-ish as the target commit-ish. |
| Releases.TagAndCommitish | src/releases/mod.rs:181-195 | A release built from a tag and a commit-ish only is sent as the two keys "tag_name" and "target_commitish", and nothing else. |
| Releases.ReleaseOptionalExactly | src/releases/mod.rs:144-179 | Only an asset's label is optional; no field of a release is. |
| Releases.AssetFields | src/releases/mod.rs:144-158 | An asset missing its label, or giving it as `null`, reads it as `None`; one missing any other field does not decode. |
| Releases.ReleaseNameBody | src/releases/mod.rs:160-179 | A release whose name or body is missing or `null` does not decode: both are plain strings. |
| Releases.AssetDelete | src/releases/mod.rs:44-48 | A DELETE of `/repos/{owner}/{repo}/releases/{releaseId}/assets/{id}` with no body. |
| Releases.AssetGet | src/releases/mod.rs:40-42 | A GET of `/repos/{owner}/{repo}/releases/{releaseId}/assets/{id}` with no body. |
| Releases.AssetList | src/releases/mod.rs:50-52 | A GET of `/repos/{owner}/{repo}/releases/{releaseId}/assets` with no body. |
| Releases.Create | src/releases/mod.rs:117-120 | A POST of `/repos/{owner}/{repo}/releases` with the JSON of the release options. |
| Releases.Delete | src/releases/mod.rs:127-131 | A DELETE of `/repos/{owner}/{repo}/releases/{id}` with no body. |
| Releases.Edit | src/releases/mod.rs:122-125 | A PATCH of `/repos/{owner}/{repo}/releases/{id}` with the JSON of the release options. |
| Releases.List | src/releases/mod.rs:133-135 | A GET of `/repos/{owner}/{repo}/releases` with no body. |
| Releases.RefGet | src/releases/mod.rs:83-85 | A GET of `/repos/{owner}/{repo}/releases/{id}` with no body. |
| Search.ParseIssuesSort | src/search/mod.rs:13-34 | Reads a name back to the one sort key whose display text it is, and to nothing otherwise. |
| Search.SearchUri | src/search/mod.rs:76-85 | The endpoint, a '?', the serialized options when there are any followed by '&', and then the query as the last pair, `q=<encoded q>`. |
| Search.QueryLast | src/search/mod.rs:76-85 | The query is always the last pair, whatever the options. |
| Search.SearchIssuesNoOptions | src/search/mod.rs:76-85 | Searching without options sends "/search/issues?q=" and the encoded query alone. |
| Search.IssuesListIsIter | src/search/mod.rs:87-104 | A page and the stream send the same GET request. |
| Search.SearchIssuesOptionsBuilder.constructor | src/search/mod.rs:138-141 | No option set. |
| Search.SearchIssuesOptionsBuilder.Sort | src/search/mod.rs:143-146 | Stores the sort key's name under "sort", replacing an earlier one; every other option reads as before. |
| Search.SearchIssuesOptionsBuilder.Order | src/search/mod.rs:148-151 | Stores the direction's name under "order", replacing an earlier one; every other option reads as before. |
| Search.SearchIssuesOptionsBuilder.Build | src/search/mod.rs:153-155 | The built options are exactly the builder's options. |
| Search.SortOnlySerializes | src/search/mod.rs:119-146 | Options with only a sort key serialize to that one pair; no options serialize to nothing. |
| Search.SearchResultKind | src/search/mod.rs:158-163 | The envelope has three fields, the last being the required list of items, each decoded as the item type. |
| Search.SearchResultItems | src/search/mod.rs:42-44 | The envelope stands or falls with its items: one item that does not decode makes the whole page fail, and a page that decodes lists its items in the order sent. |
| Search.CountNotChecked | src/search/mod.rs:158-163 | The total count is not compared with the items: a page claiming any number of results and holding none decodes. |
| Search.IssuesItemOptional | src/search/mod.rs:166-189 | Assignee, closing time, pull request and body may be missing, and read as `None`; the label and assignee lists may not. |
| Search.SplitsAtRoot | src/search/mod.rs:195 | A path from the root splits into at least two pieces, so `path[0]` and `path[1]` exist after the reverse. |
| Search.RepositoryPathPieces | src/search/mod.rs:194-195 | "/repos/{owner}/{repo}" splits into "", "repos", the owner and the repository. |
| Search.RepoTupleSwapped | src/search/mod.rs:191-198 | As written, the tuple of "/repos/{owner}/{repo}" is (repo, owner): the order is the reverse of the documented one. |
| Search.RepoTupleOwnerRepo | src/search/mod.rs:192-198 | The documented order, (owner, repo), taken from the last two pieces of the path. |
| Search.IterIssues | src/search/mod.rs:90-97 | A GET, with no body, of the search URI `SearchUri` builds from `/search/issues`, the query and the options. |
| Search.ListIssues | src/search/mod.rs:100-104 | A GET, with no body, of the search URI `SearchUri` builds from `/search/issues`, the query and the options. |
| Search.RepoTuple | src/search/mod.rs:192-198 | The last two pieces of the path, in order: the owner, then the repository. |
| Search.RepoTupleAsWritten | src/search/mod.rs:193-198 | The last two pieces of the path, swapped: the last piece first. |
| SearchRepos.ParseReposSort | src/search/repos.rs:11-29 | Reads a name back to the one sort key whose display text it is, and to nothing otherwise. |
| SearchRepos.SearchReposUriShape | src/search/repos.rs:46-58 | Without options the URI is "/search/repositories?q=" and the encoded query alone; with any options the query is still the last pair. |
| SearchRepos.SearchReposOptionsBuilder.constructor | src/search/repos.rs:87-111 | No option set. |
| SearchRepos.SearchReposOptionsBuilder.PerPage | src/search/repos.rs:113-116 | Stores the page size in decimal under "per_page", replacing an earlier one; every other option reads as before. |
| SearchRepos.SearchReposOptionsBuilder.Sort | src/search/repos.rs:118-121 | Stores the sort key's name under "sort"; every other option reads as before. |
| SearchRepos.SearchReposOptionsBuilder.Order | src/search/repos.rs:123-126 | Stores the direction's name under "order"; every other option reads as before. |
| SearchRepos.SearchReposOptionsBuilder.Build | src/search/repos.rs:128-132 | The built options are exactly the builder's options. |
| SearchRepos.PerPageTwice | src/search/repos.rs:113-116 | A page size set twice keeps the later one. |
| SearchRepos.MirrorUrlOptional | src/search/repos.rs:200 | The mirror URL may be missing, and reads as `None`. |
| SearchRepos.ReposItemRequired | src/search/repos.rs:135-209 | Description, homepage, language and license are required: without any of them a repository does not decode. |
| SearchRepos.ReposItemNotNull | src/search/repos.rs:143-203 | Nor may any of them be `null`. |
| SearchRepos.LicenseRequiresAll | src/search/repos.rs:211-217 | A license missing any of its fields does not decode. |
| SearchRepos.Iter | src/search/repos.rs:63-68 | A GET, with no body, of the search URI `SearchUri` builds from `/search/repositories`, the query and the options. |
| SearchRepos.List | src/search/repos.rs:73-79 | A GET, with no body, of the search URI `SearchUri` builds from `/search/repositories`, the query and the options. |
| Checks.CheckRunCalls | src/checks.rs:27-66 | Creating and updating both post, the update below the created collection at the run's id; listing a suite reads below the same collection. |
| Checks.ParseCheckRunState | src/checks.rs:71-77 | Reads a state from its snake-case tag, and exactly the three tags read; there is no fallback variant. |
| Checks.ParseConclusion | src/checks.rs:79-89 | Reads a conclusion from its snake-case tag, and exactly the seven tags read. |
| Checks.ParseAnnotationLevel | src/checks.rs:91-97 | Reads a level from its snake-case tag, and exactly the three tags read. |
| Checks.TagsDecode | src/checks.rs:71-97 | Each of the three enums reads exactly its own tags; any other string is an unknown variant. |
| Checks.ActionVal | src/checks.rs:111-116 | An action's value is one the decoder can produce. |
| Checks.ImageVal | src/checks.rs:133-139 | An image's value is one the decoder can produce. |
| Checks.AnnotationsVal | src/checks.rs:106 | The annotations keep their number and order. |
| Checks.ImagesVal | src/checks.rs:108 | The images keep their number and order. |
| Checks.DecodeOutput | src/checks.rs:99-109 | An output reads exactly when its JSON decodes as the output record. |
| Checks.ActionRoundTrip | src/checks.rs:111-116 | An action written and read back is the same action. |
| Checks.ImageRoundTrip | src/checks.rs:133-139 | An image written and read back is the same image, its caption left out when `None`. |
| Checks.OutputKindsWellFormed | src/checks.rs:99-139 | Field names are distinct and nothing is skipped but an `Option`, in each output record. |
| Checks.AnnotationConforms | src/checks.rs:118-131 | An annotation's value is one the decoder can produce: its level is one of the tags and its lines fit a `u32`. |
| Checks.AnnotationRoundTrip | src/checks.rs:118-131 | An annotation written and read back is the same annotation. |
| Checks.OutputConforms | src/checks.rs:99-109 | An output's value is one the decoder can produce. |
| Checks.OutputOfVal | src/checks.rs:99-109 | An output's annotations and images come back in the order written. |
| Checks.OutputRoundTrip | src/checks.rs:99-109 | Reading back what was written for an output gives the output: `None` fields were left out and read back as `None`. |
| Checks.OutputRequiredFields | src/checks.rs:100-102 | An output always writes its title and summary, once each. |
| Checks.OutputOptionalFields | src/checks.rs:103-108 | An output writes its text, annotations and images only when they are set. |
| Checks.OutputOptional | src/checks.rs:99-139 | Every `Option` field of the output records is one a missing key reads as `None`, and no other field is. |
| Checks.AnnotationUnknownLevel | src/checks.rs:91-127 | An annotation whose level is not one of the three tags does not decode. |
| Checks.AnnotationLineRange | src/checks.rs:121 | An annotation line outside `u32` does not decode. |
| Checks.ActionsVal | src/checks.rs:160 | A list of actions is a value the decoder can produce. |
| Checks.CheckRunOptionsRequired | src/checks.rs:141-144 | A create body always writes the name and the head sha, once each. |
| Checks.CheckRunOptionsIds | src/checks.rs:145-148 | The details URL and the external id are written once when set, not at all when `None`. |
| Checks.CheckRunOptionsTimes | src/checks.rs:151-156 | The start and completion times are written once when set, not at all when `None`. |
| Checks.CheckRunOptionsTags | src/checks.rs:149-154 | The status and the conclusion are written as their tags when set, not at all when `None`. |
| Checks.CheckRunOptionsNested | src/checks.rs:157-160 | The output and the actions are written as their JSON when set, not at all when `None`. |
| Checks.CheckRunUpdateOptionsFields | src/checks.rs:163-183 | An update writes exactly the fields that are set: a field that is `None` is absent, one that is set occurs once. |
| Checks.CheckRunUpdateOptionsEmpty | src/checks.rs:163-183 | An update that sets nothing is the empty object. |
| Checks.CheckRunUpdateOptionsNotEmpty | src/checks.rs:163-183 | Any update that sets a field is not the empty object. |
| Checks.CheckRunFields | src/checks.rs:185-217 | A check run missing one of its optional fields reads it as `None`; one missing any other field does not decode. |
| Checks.CheckRunIgnoresOutput | src/checks.rs:198-215 | An "output" key, whatever it holds, is ignored when reading a check run. |
| Checks.CheckRunUnknownTag | src/checks.rs:73-77 | A check run whose status is not one of the state tags does not decode. |
| Checks.Create | src/checks.rs:31-41 | A POST of `/repos/{owner}/{repo}/check-runs` with the JSON of the check run options. |
| Checks.ListForSuite | src/checks.rs:59-66 | A GET of `/repos/{owner}/{repo}/check-runs/{suiteId}/check-runs` with no body. |
| Checks.Update | src/checks.rs:43-57 | A POST of `/repos/{owner}/{repo}/check-runs/{id}` with the JSON of the check run update options. |
| Repositories.ParseVisibility | src/repositories/mod.rs:35-50 | Each visibility has its own display name; reading a name back gives exactly the visibility written as it. |
| Repositories.ParseSort | src/repositories/mod.rs:54-71 | Each sort order has its own display name; reading a name back gives exactly the order written as it. |
| Repositories.ParseAffiliation | src/repositories/mod.rs:75-90 | Each affiliation has its own display name; reading a name back gives exactly the affiliation written as it. |
| Repositories.ParseRepoType | src/repositories/mod.rs:94-113 | Each repository type has its own display name; reading a name back gives exactly the type written as it. |
| Repositories.ParseOrgRepoType | src/repositories/mod.rs:117-138 | Each organization repository type has its own display name; reading a name back gives exactly the type written as it. |
| Repositories.AffiliationNames | src/repositories/mod.rs:769-772 | One display name per affiliation, in the order given. |
| Repositories.ParseAffiliationNames | src/repositories/mod.rs:769-772 | Reading the displayed names one by one gives back the affiliations. |
| Repositories.AffiliationsRoundTrip | src/repositories/mod.rs:766-776 | The comma-joined value stored under "affiliation" keeps every affiliation in order: splitting it at ',' and reading the names gives the list back. |
| Repositories.AffiliationExample | src/repositories/mod.rs:766-776 | Owner and collaborator are stored as "owner,collaborator". |
| Repositories.AffiliationNamesSafe | src/repositories/mod.rs:84-86 | Every affiliation name is made of characters the form encoding leaves alone. |
| Repositories.AffiliationsQuery | src/repositories/mod.rs:740-776 | Sent alone, the affiliations appear as `affiliation=` followed by their names joined by an encoded comma `%2C`. |
| Repositories.RepoListOptionsBuilder.constructor | src/repositories/mod.rs:729-753 | The default builder holds no option. |
| Repositories.RepoListOptionsBuilder.PerPage | src/repositories/mod.rs:756-759 | Sets "per_page" to the decimal page size, replacing an earlier value and keeping the others. |
| Repositories.RepoListOptionsBuilder.SetVisibility | src/repositories/mod.rs:761-764 | Sets "visibility" to the visibility's name, replacing an earlier value and keeping the others. |
| Repositories.RepoListOptionsBuilder.SetAffiliation | src/repositories/mod.rs:766-776 | Sets "affiliation" to the names joined by ",", replacing an earlier value and keeping the others. |
| Repositories.RepoListOptionsBuilder.SetRepoType | src/repositories/mod.rs:778-781 | Sets "type" to the type's name, replacing an earlier value and keeping the others. |
| Repositories.RepoListOptionsBuilder.SetSort | src/repositories/mod.rs:783-786 | Sets "sort" to the order's name, replacing an earlier value and keeping the others. |
| Repositories.RepoListOptionsBuilder.Asc | src/repositories/mod.rs:788-790 | Sets "direction" to "asc". |
| Repositories.RepoListOptionsBuilder.Desc | src/repositories/mod.rs:792-794 | Sets "direction" to "desc". |
| Repositories.RepoListOptionsBuilder.Direction | src/repositories/mod.rs:796-799 | Sets "direction" to the direction's name, replacing an earlier value and keeping the others. |
| Repositories.RepoListOptionsBuilder.Build | src/repositories/mod.rs:801-805 | The built options are the builder's pairs, copied. |
| Repositories.OrgRepoListOptionsBuilder.constructor | src/repositories/mod.rs:963-987 | The default builder holds no option. |
| Repositories.OrgRepoListOptionsBuilder.PerPage | src/repositories/mod.rs:990-993 | Sets "per_page" to the decimal page size, replacing an earlier value and keeping the others. |
| Repositories.OrgRepoListOptionsBuilder.SetRepoType | src/repositories/mod.rs:995-998 | Sets "type" to the organization type's name, replacing an earlier value and keeping the others. |
| Repositories.OrgRepoListOptionsBuilder.Build | src/repositories/mod.rs:1000-1004 | The built options are the builder's pairs, copied. |
| Repositories.UserRepoListOptionsBuilder.constructor | src/repositories/mod.rs:1007-1031 | The default builder holds no option. |
| Repositories.UserRepoListOptionsBuilder.SetRepoType | src/repositories/mod.rs:1034-1037 | Sets "type" to the type's name, replacing an earlier value and keeping the others. |
| Repositories.UserRepoListOptionsBuilder.PerPage | src/repositories/mod.rs:1039-1042 | Sets "per_page" to the decimal page size, replacing an earlier value and keeping the others. |
| Repositories.UserRepoListOptionsBuilder.SetSort | src/repositories/mod.rs:1044-1047 | Sets "sort" to the order's name, replacing an earlier value and keeping the others. |
| Repositories.UserRepoListOptionsBuilder.Asc | src/repositories/mod.rs:1049-1051 | Sets "direction" to "asc". |
| Repositories.UserRepoListOptionsBuilder.Desc | src/repositories/mod.rs:1053-1055 | Sets "direction" to "desc". |
| Repositories.UserRepoListOptionsBuilder.Direction | src/repositories/mod.rs:1057-1060 | Sets "direction" to the direction's name, replacing an earlier value and keeping the others. |
| Repositories.UserRepoListOptionsBuilder.Build | src/repositories/mod.rs:1062-1066 | The built options are the builder's pairs, copied. |
| Repositories.OrganizationRepoListOptionsBuilder.constructor | src/repositories/mod.rs:1069-1093 | The default builder holds no option. |
| Repositories.OrganizationRepoListOptionsBuilder.PerPage | src/repositories/mod.rs:1096-1099 | Sets "per_page" to the decimal page size, replacing an earlier value and keeping the others. |
| Repositories.OrganizationRepoListOptionsBuilder.SetRepoType | src/repositories/mod.rs:1101-1104 | Sets "type" to the organization type's name, replacing an earlier value and keeping the others. |
| Repositories.OrganizationRepoListOptionsBuilder.Build | src/repositories/mod.rs:1106-1110 | The built options are the builder's pairs, copied. |
| Repositories.DirectionTwice | src/repositories/mod.rs:788-799 | Choosing a direction twice keeps only the later choice. |
| Repositories.UserReposUriJoins | src/repositories/mod.rs:265-272 | Appending '?' and the query to "/users/{owner}/repos" only when the options serialize agrees with joining path and query by "?"; with no options the uri is the bare path. |
| Repositories.ListingCalls | src/repositories/mod.rs:154-220 | The listings are GETs of "/user/repos" and "/orgs/{org}/repos", with '?' and the query only when an option is set; creating POSTs to the listing's own path. |
| Repositories.RepositoryCalls | src/repositories/mod.rs:363-383 | get, edit and delete address "/repos/{owner}/{repo}"; edit is a POST with the options' JSON. |
| Repositories.RepoFieldsOptionalLow | src/repositories/mod.rs:483-520 | Of the first thirty fields of a repository, only description is optional. |
| Repositories.RepoFieldsOptionalHigh | src/repositories/mod.rs:521-548 | Of the last thirty-five fields of a repository, only mirror_url, homepage and language are optional. |
| Repositories.RepoOptionalExactly | src/repositories/mod.rs:483-549 | Exactly description, mirror_url, homepage and language are optional in a repository. |
| Repositories.RepoRequired | src/repositories/mod.rs:483-549 | A repository missing any field other than the four optional ones does not decode. |
| Repositories.RepoOptional | src/repositories/mod.rs:488-535 | A repository without a description, mirror, homepage or language reads each as `None`. |
| Repositories.RepoOptionsNameFirst | src/repositories/mod.rs:569-571 | The name is always written, and written first. |
| Repositories.RepoOptionsBody | src/repositories/mod.rs:572-592 | description, homepage, gitignore_template and license_template are left out when `None` and written exactly once, with their values, when set. |
| Repositories.RepoOptionsBodyFlags | src/repositories/mod.rs:576-588 | private, has_issues, has_wiki, has_downloads, team_id and auto_init are left out when `None` and written exactly once, with their values, when set. |
| Repositories.RepoOptionsStrAt | src/repositories/mod.rs:569-593 | A skipped-when-`None` text field of the creation body is written exactly when set. |
| Repositories.RepoOptionsNameOnly | src/repositories/mod.rs:689-722 | Options holding only a name serialize to `{"name": name}`. |
| Repositories.NewRepoOptions | src/repositories/mod.rs:595-606 | Starting options carry the given name. |
| Repositories.RepoOptionsBuilder.constructor | src/repositories/mod.rs:598-606 | The builder starts from the name and every other field `None`. |
| Repositories.RepoOptionsBuilder.SetDescription | src/repositories/mod.rs:608-614 | Sets description alone. |
| Repositories.RepoOptionsBuilder.SetHomepage | src/repositories/mod.rs:616-622 | Sets homepage alone. |
| Repositories.RepoOptionsBuilder.SetPrivate | src/repositories/mod.rs:624-627 | Sets private alone. |
| Repositories.RepoOptionsBuilder.SetHasIssues | src/repositories/mod.rs:629-632 | Sets has_issues alone. |
| Repositories.RepoOptionsBuilder.SetHasWiki | src/repositories/mod.rs:634-637 | Sets has_wiki alone. |
| Repositories.RepoOptionsBuilder.SetHasDownloads | src/repositories/mod.rs:639-642 | Sets has_downloads alone. |
| Repositories.RepoOptionsBuilder.SetTeamId | src/repositories/mod.rs:644-647 | Sets team_id alone. |
| Repositories.RepoOptionsBuilder.SetAutoInit | src/repositories/mod.rs:649-652 | Sets auto_init alone. |
| Repositories.RepoOptionsBuilder.SetGitignoreTemplate | src/repositories/mod.rs:654-660 | Sets gitignore_template alone. |
| Repositories.RepoOptionsBuilder.SetLicenseTemplate | src/repositories/mod.rs:662-668 | Sets license_template alone. |
| Repositories.RepoOptionsBuilder.Build | src/repositories/mod.rs:670-684 | The built options are the builder's fields, unchanged. |
| Repositories.RepoEditOptionsNameFirst | src/repositories/mod.rs:808-810 | The name is always written, and written first. |
| Repositories.RepoEditOptionsBody | src/repositories/mod.rs:811-824 | description, homepage and default_branch are left out when `None` and written exactly once, with their values, when set. |
| Repositories.RepoEditOptionsBodyFlags | src/repositories/mod.rs:815-830 | The seven flags are left out when `None` and written exactly once, with their values, when set. |
| Repositories.RepoEditOptionsStrAt | src/repositories/mod.rs:808-831 | A skipped-when-`None` text field of the edit body is written exactly when set. |
| Repositories.RepoEditOptionsNameOnly | src/repositories/mod.rs:877-885 | Options holding only a name serialize to `{"name": name}`. |
| Repositories.NewRepoEditOptions | src/repositories/mod.rs:877-885 | Starting options carry the given name. |
| Repositories.RepoEditOptionsBuilder.constructor | src/repositories/mod.rs:877-885 | The builder starts from the name and every other field `None`. |
| Repositories.RepoEditOptionsBuilder.SetDescription | src/repositories/mod.rs:887-893 | Sets description alone. |
| Repositories.RepoEditOptionsBuilder.SetHomepage | src/repositories/mod.rs:895-901 | Sets homepage alone. |
| Repositories.RepoEditOptionsBuilder.SetPrivate | src/repositories/mod.rs:903-906 | Sets private alone. |
| Repositories.RepoEditOptionsBuilder.SetHasIssues | src/repositories/mod.rs:908-911 | Sets has_issues alone. |
| Repositories.RepoEditOptionsBuilder.SetHasProjects | src/repositories/mod.rs:913-916 | Sets has_projects alone. |
| Repositories.RepoEditOptionsBuilder.SetHasWiki | src/repositories/mod.rs:918-921 | Sets has_wiki alone. |
| Repositories.RepoEditOptionsBuilder.SetDefaultBranch | src/repositories/mod.rs:923-929 | Sets default_branch alone. |
| Repositories.RepoEditOptionsBuilder.SetAllowSquashMerge | src/repositories/mod.rs:931-934 | Sets allow_squash_merge alone. |
| Repositories.RepoEditOptionsBuilder.SetAllowMergeCommit | src/repositories/mod.rs:936-939 | Sets allow_merge_commit alone. |
| Repositories.RepoEditOptionsBuilder.SetAllowRebaseMerge | src/repositories/mod.rs:941-944 | Sets allow_rebase_merge alone. |
| Repositories.RepoEditOptionsBuilder.Build | src/repositories/mod.rs:946-960 | The built options are the builder's fields, unchanged. |
| Repositories.CreateInOrg | src/repositories/mod.rs:239-241 | A POST of `/orgs/{org}/repos` with the JSON of the repo options. |
| Repositories.CreateMine | src/repositories/mod.rs:160-162 | A POST of `/user/repos` with the JSON of the repo options. |
| Repositories.Delete | src/repositories/mod.rs:381-383 | A DELETE of `/repos/{owner}/{repo}` with no body. |
| Repositories.Edit | src/repositories/mod.rs:373-378 | A POST of `/repos/{owner}/{repo}` with the JSON of the repo edit options. |
| Repositories.Get | src/repositories/mod.rs:368-370 | A GET of `/repos/{owner}/{repo}` with no body. |
| Repositories.ListMine | src/repositories/mod.rs:166-186 | A GET of `/user/repos` with no body; when the options serialize to a query, a '?' and that query follow the path. |
| Repositories.ListOrg | src/repositories/mod.rs:215-237 | A GET of `/orgs/{org}/repos` with no body; when the options serialize to a query, a '?' and that query follow the path. |
| Repositories.UserReposUri | src/repositories/mod.rs:265-273 | `/users/{owner}/repos`, followed by '?' and the query only when the options serialize to one. |
| Base64.Symbol | src/content.rs:76-93 | No symbol of the alphabet is the pad, a newline, a carriage return or a space. |
| Base64.Value | src/content.rs:257 | A character has a 6-bit value only when it is the symbol of that value. |
| Base64.ValueOfSymbol | src/content.rs:257 | Reading a symbol gives back its 6-bit value. |
| Base64.Encode | src/content.rs:76-93 | Empty bytes encode to empty text, and any other bytes to at least one four-symbol group. |
| Base64.EncodeLength | src/content.rs:76-93 | Every encoding is a whole number of four-symbol groups. |
| Base64.DecodeEncode | src/content.rs:257 | Decoding an encoding gives the bytes back. |
| Base64.EncodeDecode | src/content.rs:257-273 | Whatever the strict decoder accepts is the encoding of what it returns, so non-canonical padding and stray bits are refused. |
| Base64.DecodeIffEncoding | src/content.rs:257-273 | Decoding succeeds with some bytes exactly when the input is their encoding. |
| Base64.EncodeAlphabet | src/content.rs:76-93 | An encoding holds only alphabet symbols and '='. |
| Base64.RemoveNewlines | src/content.rs:252-255 | The text handed to the decoder holds no newline. |
| Base64.RemoveNewlinesAppend | src/content.rs:255 | Removing newlines distributes over concatenation. |
| Base64.RemoveNewlinesKeeps | src/content.rs:255 | Every character other than a newline survives the removal. |
| Base64.RemoveNewlinesNone | src/content.rs:255 | Text without newlines is left as it is. |
| Base64.DecodeWrappedIff | src/content.rs:252-273 | The content decoder returns some bytes exactly when the text minus its newlines is their encoding. |
| Base64.DecodeWithNewline | src/content.rs:252-257 | A newline inserted anywhere into an encoding still decodes to the same bytes. |
| Base64.DecodeWrappedEncoding | src/content.rs:252-257 | Bytes sent as encoded lines of any width, as the service wraps them, decode to those bytes. |
| Base64.DecodeWrappedOfEncode | src/content.rs:252-257 | Text as the encoder writes it decodes back to the bytes. |
| Base64.DecodeWrappedRejects | src/content.rs:252-273 | A carriage return, a space or any character outside the alphabet makes decoding fail. |
| Bytes.Utf8Char | src/issues/mod.rs:182-183 | An ASCII character is the one byte of its code; any other character is two to four bytes, all at or above 0x80. |
| Bytes.Utf8Ascii | src/issues/mod.rs:182-183 | An ASCII string encodes to its own character codes. |
| Bytes.Utf8Append | src/issues/mod.rs:182-183 | The UTF-8 encoding of two strings joined is the two encodings joined. |
| Bytes.HexValue | src/content.rs:37 | The value of a hexadecimal digit of either case, below sixteen, and -1 for any other character; a digit is the one written for its value. |
| Bytes.HexRoundTrip | src/content.rs:37 | Reading back a written hexadecimal digit gives its value. |
| Json.EscapeChar | src/macros.rs:1-17 | A character is written as itself unless it is a quote, a backslash or a control character, which are written as a backslash escape of at most six characters. |
| Json.EscapePlain | src/macros.rs:1-5 | A string with no quote, backslash or control character is written unescaped. |
| Json.QuotePlain | src/macros.rs:1-5 | A plain string is written as itself between quotes. |
| Json.RenderTwoStrings | src/macros.rs:1-17 | An object of two string entries is written compactly, its entries in stored order separated by one comma. |
| Json.RenderOneEntry | src/collaborators.rs:72-73 | An object of one entry is written as the quoted key, a colon and the value, between braces. |
| Json.Keys | src/hooks/mod.rs:311 | The keys of an object's entries, one per entry, in order. |
| Json.Get | src/hooks/mod.rs:311-319 | A key is found exactly when some entry has it, and then with a value stored under it. |
| Json.NormalizeIsNormalized | src/hooks/mod.rs:311 | A value read from JSON text holds every object's keys in ascending order, each once. |
| Json.NormalizeFixed | src/hooks/mod.rs:311 | A value already in that form reads back as itself. |
| Json.Render | src/macros.rs:1-17 | Non-empty text whose first character tells the kind: '{' exactly for an object, '[' exactly for an array, '"' exactly for a string; an object ends in '}', an array in ']', a string in '"'; the text is "null" exactly for null, and a boolean reads "true" exactly when it is true. |
| JsonPointer.EscapeToken | src/hooks/mod.rs:318-319 | A key written as a reference token holds no '/', so it stays one token. |
| JsonPointer.ParseIndex | src/hooks/mod.rs:318-319 | A token read as an index is the decimal rendering of that index, which is below 2^64. |
| JsonPointer.Step | src/hooks/mod.rs:318-319 | In an object a step looks the key up; in anything but an object or an array it finds nothing. |
| JsonPointer.Pointer | src/hooks/mod.rs:318-319 | The empty pointer finds the whole value; a pointer not starting with '/' finds nothing. |
| JsonPointer.CanonicalNumeral | src/hooks/mod.rs:318-319 | A numeral without leading zeros is the rendering of its value. |
| JsonPointer.ParseIndexOfNumeral | src/hooks/mod.rs:318-319 | Every index below 2^64 is found through its decimal numeral. |
| JsonPointer.ParseIndexRejects | src/hooks/mod.rs:318-319 | An empty token, a leading zero or a leading '+' is not an index. |
| JsonPointer.UnescapeEscape | src/hooks/mod.rs:318-319 | Escaping a key and reading the token back gives the key again, whatever '/' or '~' it holds. |
| JsonPointer.UnescapePlain | src/hooks/mod.rs:318-319 | A token without '~' reads as itself. |
| JsonPointer.PointerOneToken | src/hooks/mod.rs:318-319 | "/" and a token without '/' make a single step. |
| JsonPointer.PointerEscapedKey | src/hooks/mod.rs:318-319 | Any key is reached by "/" and the escaped key. |
| JsonPointer.PointerPlainName | src/hooks/mod.rs:318-319 | `config_value(name)` with a plain name looks the name up as an object key, and finds nothing in anything but an object or an array. |
| JsonPointer.PointerTwoTokens | src/hooks/mod.rs:318-319 | A name holding '/' is not one key: "/a/b" looks up b inside the value at a. |
| JsonPointer.GetSorted | src/hooks/mod.rs:106 | In entries with ascending keys, as a `BTreeMap` writes them, a lookup finds the one stored value. |
| StringOrder.LessIrreflexive | src/hooks/mod.rs:106 | No key orders before itself. |
| StringOrder.LessTransitive | src/hooks/mod.rs:106 | The key order is transitive. |
| StringOrder.LessTotal | src/hooks/mod.rs:106 | Of two different keys, one orders before the other. |
| StringOrder.Insert | src/hooks/mod.rs:193-198 | Inserting keeps the keys ascending, replaces the value of a present key and adds a new key at its place. |
| StringOrder.InsertAbove | src/hooks/mod.rs:193-198 | A key above every present key is appended. |
| StringOrder.Lookup | src/hooks/mod.rs:106 | A found value is stored under the key; nothing is found when no entry has the key. |
| StringOrder.LookupStored | src/hooks/mod.rs:106 | In sorted entries each key has one value, so a lookup finds exactly the stored pairs. |
| StringOrder.InsertLookup | src/hooks/mod.rs:193-198 | An insert stores its value under its key and leaves every other key as it was. |
| Text.NatToString | src/keys/mod.rs:47-51 | A non-empty string of digits with no leading zero. |
| Text.ParseNatToString | src/keys/mod.rs:47-51 | Reading back a rendered number gives the number again. |
| Text.NatToStringInjective | src/keys/mod.rs:47-51 | Different numbers render differently, so a number in a URI names one resource. |
| Text.IntToString | src/repositories/mod.rs:644-647 | A negative number is written as '-' before its magnitude. |
| Text.BoolToString | src/notifications/mod.rs:236-243 | "true" or "false". |
| Text.Join | src/issues/mod.rs:333 | The parts with the separator between consecutive ones: empty for no parts, the part itself for one, the first part a prefix, and at least the first part, the separator and the last part long for two or more. |
| Text.JoinTwo | src/issues/mod.rs:333 | Joining two parts puts the separator between them once. |
| Text.JoinCons | src/issues/mod.rs:333 | One more part in front: that part, a separator, then the rest joined. |
| Text.Split | src/search/mod.rs:195 | There is always at least one piece. |
| Text.SplitPlain | src/search/mod.rs:195 | Text without the separator is a single piece. |
| Text.SplitAfter | src/search/mod.rs:195 | A piece followed by the separator is a piece of its own. |
| Text.SplitJoin | src/search/mod.rs:195 | Splitting undoes joining when no part holds the separator. |
| Text.ParseNat | src/hooks/mod.rs:318-319 | A numeral is worth zero exactly when every digit is '0'. |
| UrlEncoding.PercentByte | src/repositories/mod.rs:744-746 | Three characters, the first '%'. |
| UrlEncoding.FormEncodeBytes | src/repositories/mod.rs:744-746 | The encoding is never shorter than the bytes. |
| UrlEncoding.FormByteDecodes | src/repositories/mod.rs:744-746 | The encoding of one byte decodes back to it. |
| UrlEncoding.FormRoundTrip | src/repositories/mod.rs:744-746 | Form encoding loses nothing: decoding it gives the original bytes back. |
| UrlEncoding.FormEncodeInjective | src/repositories/mod.rs:744-746 | Two byte strings with the same form encoding are equal. |
| UrlEncoding.FormEncodeAppend | src/repositories/mod.rs:744-746 | Encoding works byte by byte, so it distributes over concatenation. |
| UrlEncoding.FormEncodeSafeBytes | src/repositories/mod.rs:744-746 | Safe bytes are written as the characters they code. |
| UrlEncoding.FormEncodeSafe | src/repositories/mod.rs:744-746 | A string of letters, digits and `*-._` is its own form encoding. |
| UrlEncoding.FormEncodeComma | src/repositories/mod.rs:744-776 | A ',' is written as "%2C". |
| UrlEncoding.CommaBytes | src/repositories/mod.rs:744-746 | The comma is the one byte 0x2C, and that byte is percent-encoded. |
| UrlEncoding.AppendPair | src/search/mod.rs:82 | A '&' is written first exactly when the target is not empty, then the encoded name, '=' and the encoded value. |
| UrlEncoding.FormPairs | src/repositories/mod.rs:744-746 | The query is empty exactly when there are no pairs. |
| UrlEncoding.FormPairsOne | src/repositories/mod.rs:744-746 | A single pair is written as its encoded name, '=' and its encoded value. |
| UrlEncoding.PathEncodeIsInert | src/content.rs:34-37 | An encoded location never holds a space, '?' or '#', so it cannot start a query or a fragment. |
| UrlEncoding.PathEncodeKeepsPlain | src/content.rs:34-37 | Bytes outside the encoded set are written unchanged. |
| UrlEncoding.FormEncode | src/repositories/mod.rs:744-746 | Decoding the text gives back the string's UTF-8 bytes. |
| UrlEncoding.PathEncode | src/content.rs:34-37 | The text holds no space, '?' or '#', and only ASCII characters below DEL. |
| Schema.OccurrencesMeaning | src/rep.rs:3-86 | A key is absent when no entry has it, occurs once when exactly one does, and is repeated otherwise. |
| Schema.DecodeEntries | src/gists/mod.rs:166 | A map read from an object holds its keys in ascending order. |
| Schema.OccurrencesUnique | src/rep.rs:3-86 | A key that exactly one entry has occurs once, with that entry's value. |
| Schema.EncodedStrField | src/rep.rs:77-86 | An `Option<String>` field skipped when `None` is left out when `None` and written once, with its value, when set. |
| Schema.EncodedBoolField | src/repositories/mod.rs:576-578 | An `Option<bool>` field skipped when `None` is left out when `None` and written once, with its value, when set. |
| Schema.EncodedIntField | src/repositories/mod.rs:585-586 | An `Option` integer field skipped when `None` is left out when `None` and written once, with its value, when set. |
| Schema.EncodeFirstString | src/repositories/mod.rs:569-571 | A struct whose first field is a required string writes that field first. |
| Schema.EncodeOnlyFirstString | src/repositories/mod.rs:569-593 | A struct whose first field is a required string and whose other fields are all `None` and skipped writes that field alone. |
| Schema.EncodeFieldsSkipped | src/rep.rs:77-86 | Fields that are all `None` and all skipped when `None` write nothing. |
| Schema.EncodeSlotWire | src/rep.rs:77-86 | A field writes at most one entry, under its own name. |
| Schema.EncodeFieldsAbsent | src/rep.rs:77-86 | A name no field uses does not occur in what the struct writes. |
| Schema.EncodeFieldsFound | src/rep.rs:77-86 | With distinct field names, a field's name occurs in what the struct writes exactly as the field itself writes it. |
| Schema.EncodeNotNull | src/rep.rs:77-86 | A value of the type other than the JSON `null` itself is never written as `null`. |
| Schema.RoundTrip | src/rep.rs:3-86 | Reading what the derived serializer wrote gives the value back, for every well-formed type. |
| Schema.DecodeConforms | src/rep.rs:3-86 | Whatever the derived deserializer produces is a value of the type. |
| Schema.DecodeFieldsSlots | src/rep.rs:3-86 | A struct decodes exactly when every one of its fields does, and then each slot is what that field gave. |
| Schema.DecodeRecord | src/rep.rs:3-86 | A struct is read from an object field by field. |
| Schema.DecodeItemsEach | src/rep.rs:3-86 | A list decodes exactly when each of its items does, and then holds what each item gave. |
| Schema.DecodeIgnoresUnknown | src/rep.rs:3-86 | Keys the struct does not declare are ignored: no struct uses `deny_unknown_fields`. |
| Schema.DecodeSlotCases | src/rep.rs:3-86 | The outcome for one field from how often its name occurs: a repeated name is an error, an absent one is `None` for an `Option` and an error otherwise. |
| Schema.SlotOf | src/rep.rs:3-86 | The n-th slot of a well-formed struct value is a value of the n-th field's type. |
| Schema.DecodeRecordOf | src/rep.rs:3-86 | A struct's value is assembled from what each field decodes to. |
| Schema.OptionalConcat | src/rep.rs:3-86 | Two runs of fields whose `Option` fields are among a set of names make one such run. |
| Schema.RequiredUnlessListed | src/rep.rs:3-86 | In a struct whose `Option` fields are exactly those named, a missing field not named makes decoding fail. |
| Schema.EncodedField | src/rep.rs:77-86 | In what the derived serializer writes for a struct with distinct field names, a field skipped when `None` appears exactly when it is set. |
| Schema.AbsentField | src/rep.rs:3-86 | A missing field: an `Option` field reads as `None`, any other field makes decoding fail. |
| Schema.NullField | src/rep.rs:3-86 | A field given as `null`: an `Option` field reads as `None`, and any other field whose type does not accept `null` makes decoding fail. |
| Schema.StrsOfList | src/rep.rs:3-86 | Reading the strings back from the value of a `Vec<String>` gives them again. |
| Schema.EncodeItemsEach | src/rep.rs:77-86 | A list is written element by element, in order. |
| Schema.EncodeEntriesEach | src/gists/mod.rs:252 | A map is written entry by entry, in order, each key with its written value. |
| Schema.EncodeStrList | src/rep.rs:77-86 | A `Vec<String>` is written as the array of its strings, in order. |

## Left out

- HTTP transport, `Future`/`Stream`/`async` wrappers, `get_pages` and `Repo::languages`: network I/O. A reply is modelled as a status and an optional JSON body, and a stream as a `StreamState` driven by scripted pages.
- src/jwt.rs: RS256 signing, wall-clock time and a `Mutex` cache, so foreign crypto and concurrency; `App` paths are modelled without the token.
- Filesystem effects of `FileBasedCache` and `in_home_dir`: the file system is a map from paths to contents.
- `hyperx` parsing of the `Link` header and `Url::parse`: a link arrives already parsed into values and relations, and a URL as its path and query.
- Floating point: `ReposItem.score` is an `f64`; only integral scores are representable (`KFloat`), and a search page with a non-integral score fails to decode, where serde reads any number.
- Opaque JSON: `Deployment.payload` and `Hook.config` are kept as JSON values. The `pointer` lookup of `Hook::config_value` is modelled in full (`JsonPointer.Pointer`: several tokens, `~0`/`~1` unescaping, array indices); only the contract of `Hooks.ConfigValue` is limited to names without '/' or '~'.
- A typed combined status: `combined` reads its reply as a `String`, which the object GitHub sends never is (`Statuses.CombinedObjectFails`); the program declares no record for it, so none is modelled.
- Media types and preview `Accept` headers are not modelled; `Client.Headers` carries only the user agent and the token authorization.
- `Display` of `Error`, which prints the `Debug` rendering, and every other `Debug` output: the formatting is the derive's.
- `HashMap` iteration order: a hash map fixes no order, so the model keeps query parameters, and the files of a gist, with their keys ascending, which is one order a `HashMap` may iterate in. The text of a query with several pairs is therefore the model's choice, not the program's; only the pairs it holds, and the text of a query with one pair, are what the program sends.
- JSON text: replies are read from JSON values, not parsed from text; only the compact writing of `serde_json::to_string` is modelled (`Json.Render`). Numbers are integers only.
- Serde edge cases: structs given as JSON arrays, unit variants written as `{"tag": null}`, and which error serde reports when several apply.
- utils.rs is not part of this model: `percent_encode(location, PATH)` is modelled with the WHATWG path percent-encode set, which the name suggests.
- Mixed source generations: src/lib.rs is the older `hyper` client, while the other files use `crate::` async APIs. The decode error is `Codec` throughout, the name src/errors.rs and src/stars.rs use (src/lib.rs calls it `Decoding`).
- The `State` enum of src/issues/mod.rs has the same names and text as the one in src/lib.rs and is modelled as `Client.State`; `statuses::State` likewise reuses `Rep.StatusState`.
- `Branch` and `Milestone` are modelled as record kinds with their decoding lemmas only; they have no options or builders.
- `usize` and `u64` parameters such as `per_page` are unbounded naturals; records that hold `u64` or `u32` counters reject out-of-range numbers when decoding.
- The `new` functions of option records are the datatype constructors, or a `New…` function where the source fills in defaults.
- Stars.IsStarredFalse: stated for a reply that arrived (`reply.Ok?`); transport errors are covered by `Stars.IsStarredAnswers`.
- Deployments.DeploymentOptionsBuilder.SetPayload: `serde_json::to_string` cannot fail on a JSON value, so the `.ok()` that turns a failure into `None` is not modelled.
- Repositories.RepoOptionsBuilder.SetTeamId: takes any integer; the `i32` range is the Rust type's and is not checked.
- HttpCache.Hash1: the 64-bit hash of `DefaultHasher` is a parameter; only its rendering as sixteen hexadecimal digits is modelled.

## Findings

| source | as written | input that shows it | evidently intended | confidence | as-written member | corrected member |
|---|---|---|---|---|---|---|
| src/search/mod.rs:191-198 | `repo_tuple` splits the repository URL's path, reverses the pieces and returns the first two, which gives (repo, owner) | a `repository_url` whose path is "/repos/octocat/hello" gives ("hello", "octocat") | (owner, repo), as its doc comment says | not executed | Search.RepoTupleSwapped | Search.RepoTupleOwnerRepo |
| src/collaborators.rs:62-68 | `is_collaborator` reads the reply as `()` and answers true only when that read succeeds; GitHub answers a collaborator with 204 No Content, whose empty body is not JSON, so the read fails with a syntax error that is passed on | status 204 with an empty body gives `Err(Codec(Syntax))` | `Ok(true)`, as `is_starred` answers by treating a codec error as success | not executed | Collaborators.IsCollaboratorNoContent | Collaborators.IsCollaboratorCorrectedAnswers |
