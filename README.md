# MRSDistComp web app controllers, modelled in Dafny

This project models the decision logic of the six ASP.NET MVC controllers of the MRSDistComp
web apps:
- the participant site's `DataSourceController`, `ComputationInfoJobController`,
  `ParticipantController` and `ModelSchemaController`;
- the central registry's `ComputationInfoController` and `ComputationInfoParticipantController`.

Each action acquires an Azure AD bearer token, posts JSON to a web API, and turns the reply into
a view, a redirect or a sign-in challenge. The model keeps every branch of that logic:
- the result-set decoder;
- the form normalisations;
- the classification of replies;
- the token-cache eviction on a 401.

The outside world becomes inputs. Those are the token reply, the HTTP reply of each request,
the answers of the Azure storage library, the two clock readings and `Guid.NewGuid()`. Every
request an action sends is recorded in a trace of events. That makes "nothing is sent" and
"exactly this payload is sent" statements about the trace.

Layout, one module per file:
- `Common`: Option, Result and nullable strings.
- `Clr`: exceptions and DateTime.
- `ClrText`: `Trim`, `ToLower`, `Convert.ToInt32` and `Path.GetExtension`.
- `ClrGuid`: `Guid.ToString()` and its inverse.
- `Json`: the Newtonsoft token model and the `outputParameters.Result` envelope.
- `Cells`: the Guid, Int32-flag and DateTime coercions of one cell.
- `Decoder`: the nested `foreach` that fills the list.
- `TokenCache`: the ADAL cache as a class whose items are deleted one by one.
- `WebApi`: what all actions share. That is the GET list action, the single-request POST and
  the classification of a POST reply.
- One module per controller.

Each action has two parts:
- a specification function that returns the outcome, the trace and the new cache;
- a method, written statement by statement as the C# is, whose `ensures` ties it to that
  function.

The lemmas state the properties of the functions.

Where the design description and the code disagree, the model follows the code:
- **Form fields are not validated.** No participant field is checked for emptiness, and an
  empty formula is not rejected.
- **The job id is re-formatted.** A valid job id is sent as `Guid.ToString()` of the parsed
  Guid, not verbatim. It is the same text only when it was already in lower-case "D" form.
- **The enabled flag can throw.** A flag is `Convert.ToInt32(cell) == 1`, so a cell that is not
  an integer throws and ends in the sign-in placeholder instead of meaning "disabled".
- **Eviction always targets the central registry.** A 401 evicts the tokens of
  `CentralRegistryResourceAppId`, even where the token was acquired for `ResourceAppId`.
- **The token comes before the type check.** The data-source POST acquires its token before
  checking the type, so an unsupported type is rejected after a token request, though before
  any upload or HTTP request.
- **A GET exception keeps the partial list.** When a list action throws while decoding, the
  records decoded so far stay in the list and the sign-in placeholder is appended after them.
  The list is only a single placeholder when nothing had been decoded.
- **A missing data file goes to the `catch` block.** Building the local file name
  dereferences the absent file, so the outcome is the catalog placeholder, not the upload
  error.

## Model

| member | source | states |
|---|---|---|
| Common.DefaultIfNullOrEmpty | src/webapp/Participant/Controllers/DataSourceController.cs:191 | a null or empty string is replaced by the fallback, any other is kept |
| Common.EmptyIfNullOrEmpty | src/webapp/Central/Controllers/ComputationInfoParticipantController.cs:32-33 | the result is "" exactly for a null or empty input, otherwise the input itself |
| ClrText.ToLowerSpec | src/webapp/Participant/Controllers/DataSourceController.cs:153 | lower-casing keeps the length and lowers each character in place |
| ClrText.TrimStartBySpec | src/webapp/Participant/Controllers/DataSourceController.cs:153 | trimming the start removes exactly the longest prefix of white space and keeps the rest as a suffix |
| ClrText.TrimEndBySpec | src/webapp/Participant/Controllers/DataSourceController.cs:153 | trimming the end removes exactly the longest suffix of white space and keeps the rest as a prefix |
| ClrText.CsvTypeHasCsvCore | src/webapp/Participant/Controllers/DataSourceController.cs:153 | a type that passes the check is white space, then a core that lower-cases to "csv", then white space |
| ClrText.CsvCoreIsCsvType | src/webapp/Participant/Controllers/DataSourceController.cs:153 | conversely, every such padded spelling of "csv" passes the check |
| ClrText.ToInt32 | src/webapp/Central/Controllers/ComputationInfoController.cs:72 | a conversion that succeeds lies in the Int32 range; one that fails raises a format or overflow exception |
| ClrText.ToInt32OfIntText | src/webapp/Central/Controllers/ComputationInfoController.cs:72 | the decimal text of every Int32 converts back to that integer |
| ClrText.ExtensionFrom | src/webapp/Participant/Controllers/DataSourceController.cs:164 | the extension is empty or is a suffix that starts with its only dot, after the last separator, and is more than the dot alone |
| ClrGuid.Format | src/webapp/Participant/Controllers/ComputationInfoJobController.cs:159 | `Guid.ToString()` is 36 characters long |
| ClrGuid.ReadCanonical | src/webapp/Participant/Controllers/ComputationInfoJobController.cs:159 | a text reads as a Guid exactly when it is in lower-case 8-4-4-4-12 form |
| ClrGuid.FormatIsCanonical | src/webapp/Participant/Controllers/ComputationInfoJobController.cs:159 | every printed Guid is in that form |
| ClrGuid.ReadFormat | src/webapp/Participant/Controllers/ComputationInfoJobController.cs:159 | reading back a printed Guid gives that Guid |
| ClrGuid.FormatRead | src/webapp/Participant/Controllers/ComputationInfoJobController.cs:159 | printing the Guid read from a text in that form gives the text back |
| ClrGuid.FormatInjective | src/webapp/Participant/Controllers/ComputationInfoJobController.cs:159 | two Guids print the same only if they are equal |
| Json.ParseObject | src/webapp/Central/Controllers/ComputationInfoController.cs:55 | a body that parses yields an object |
| Json.Lookup | src/webapp/Central/Controllers/ComputationInfoController.cs:58 | a member found has that key and no later member has it (the last of repeated names wins); when none is found, no member has that key |
| Json.Item | src/webapp/Central/Controllers/ComputationInfoController.cs:66 | integer indexing succeeds exactly on an array below its length, and gives that item |
| Json.Column | src/webapp/Central/Controllers/ComputationInfoController.cs:67 | `column[k].ToString()` succeeds exactly on an array with more than k items, and gives the text of item k |
| Json.ResultRowsOfEnvelope | src/webapp/Central/Controllers/ComputationInfoController.cs:55-58 | a well-formed `outputParameters.Result` envelope gives back its rows |
| Cells.GuidCell | src/webapp/Central/Controllers/ComputationInfoController.cs:66 | the cell converts exactly when it exists and its text parses as a Guid, and gives that Guid |
| Cells.FlagCell | src/webapp/Central/Controllers/ComputationInfoController.cs:72 | the flag converts exactly when the cell's text is an Int32, and is true exactly when that Int32 is 1 |
| Cells.DateCell | src/webapp/Central/Controllers/ComputationInfoController.cs:73 | the cell converts exactly when it exists and its text parses as a date, and gives that date |
| Cells.FlagCellOfInteger | src/webapp/Central/Controllers/ComputationInfoController.cs:72 | a cell holding the text of Int32 n is enabled exactly when n is 1 |
| Cells.FlagCellNotInteger | src/webapp/Central/Controllers/ComputationInfoController.cs:72 | a cell that is not an Int32 fails with the conversion's format or overflow exception |
| Decoder.DecodeSeqSpec | src/webapp/Central/Controllers/ComputationInfoController.cs:61-77 | the records are the decoded elements of the longest prefix that decodes, in order; decoding fails exactly when that prefix is not everything, with the next element's exception |
| Decoder.DecodeSeqSuccess | src/webapp/Central/Controllers/ComputationInfoController.cs:61-77 | decoding succeeds exactly when every element decodes, and then yields one record per element, in order |
| Decoder.DecodeSeqAppend | src/webapp/Central/Controllers/ComputationInfoController.cs:61-77 | decoding a concatenation decodes the first part and, unless that failed, continues with the second |
| Decoder.DecodeRows | src/webapp/Central/Controllers/ComputationInfoController.cs:61-77 | the nested loop over rows and columns yields the decoding of all elements, stopping at the first failure with the records so far |
| TokenCache.Without | src/webapp/Central/Controllers/ComputationInfoController.cs:92 | deleting an item keeps exactly the other items |
| TokenCache.WithResource | src/webapp/Central/Controllers/ComputationInfoController.cs:90 | the selection holds exactly the cached items of that resource |
| TokenCache.Cache.ReadItems | src/webapp/Central/Controllers/ComputationInfoController.cs:90 | reading the cache gives its items and changes nothing |
| TokenCache.Cache.DeleteItem | src/webapp/Central/Controllers/ComputationInfoController.cs:92 | the cache afterwards is the old cache without that item |
| TokenCache.EvictResource | src/webapp/Central/Controllers/ComputationInfoController.cs:90-92 | deleting the selected items one by one leaves exactly the eviction of the resource |
| TokenCache.EvictedMembers | src/webapp/Central/Controllers/ComputationInfoController.cs:90-92 | an item survives eviction exactly when it was cached and belongs to another resource |
| TokenCache.EvictedKeepsOthers | src/webapp/Central/Controllers/ComputationInfoController.cs:90-92 | the items of every other resource are untouched, in the same order |
| TokenCache.EvictedIdempotent | src/webapp/Central/Controllers/ComputationInfoController.cs:90-92 | evicting the same resource twice is evicting it once |
| TokenCache.RemainingIsEvicted | src/webapp/Central/Controllers/ComputationInfoController.cs:91-92 | once every item of the resource is deleted, what remains is the eviction |
| WebApi.FromNString | src/webapp/Central/Controllers/ComputationInfoParticipantController.cs:149-154 | a null form field is serialised as JSON null, any other as its string |
| WebApi.Posts | src/webapp/Central/Controllers/ComputationInfoController.cs:47 | the requests of a trace are empty exactly when the trace sends nothing |
| WebApi.IndexList | src/webapp/Central/Controllers/ComputationInfoController.cs:26-127 | the GET action, statement by statement, ends exactly as the list specification says, including the cache |
| WebApi.ListIndexCatches | src/webapp/Central/Controllers/ComputationInfoController.cs:102-122 | no token, no connection or a failed decoding gives a challenge when reauth is "True", otherwise a list ending in the sign-in placeholder with a message starting "AuthorizationRequired"; the action itself deletes no cached token |
| WebApi.ListIndexUnauthorized | src/webapp/Central/Controllers/ComputationInfoController.cs:88-99 | a 401 shows the no-items placeholder with "UnexpectedError" and removes exactly the central registry's tokens, leaving every other resource's in order |
| WebApi.ListIndexOtherFailure | src/webapp/Central/Controllers/ComputationInfoController.cs:82-126 | any other failure status falls through to the "Error" view |
| WebApi.ListIndexSuccess | src/webapp/Central/Controllers/ComputationInfoController.cs:50-80 | a successful reply whose elements all decode lists one record per element, in order, with no message |
| WebApi.ListIndexBadElement | src/webapp/Central/Controllers/ComputationInfoController.cs:61-122 | an element that does not decode ends in the `catch` block, after at most the records of the elements before it |
| WebApi.ListIndexTrace | src/webapp/Central/Controllers/ComputationInfoController.cs:39-47 | one token request comes first; with a token, exactly the one list request is sent; of the action's own cache writes, only the 401 eviction exists |
| WebApi.ClassifyReply | src/webapp/Central/Controllers/ComputationInfoController.cs:194-218 | the reply handling, statement by statement, ends as the classification says, including the cache |
| WebApi.ClassifyCases | src/webapp/Central/Controllers/ComputationInfoController.cs:194-238 | success redirects, a 401 evicts the central registry's tokens, another status gives the fallback, a failed send gives the `catch` outcome |
| WebApi.PostAction | src/webapp/Central/Controllers/ComputationInfoParticipantController.cs:132-214 | the single-request POST, statement by statement, ends as its specification says |
| WebApi.PostIndexCases | src/webapp/Central/Controllers/ComputationInfoParticipantController.cs:132-214 | an invalid model state asks for nothing; a refused token ends in the `catch` block; otherwise exactly the one request is sent and its reply is classified |
| DataSourceController.IndexGet | src/webapp/Participant/Controllers/DataSourceController.cs:31-128 | the GET action ends as the list specification says for the data catalog |
| DataSourceController.DecodeDataSourceColumns | src/webapp/Participant/Controllers/DataSourceController.cs:67-79 | an element decodes exactly when it is an array of at least six cells, and the record takes Name to AccessInfo from cells 1 to 5 |
| DataSourceController.DecodeDataSourceIgnoresFirst | src/webapp/Participant/Controllers/DataSourceController.cs:71-77 | cell 0 never affects the record |
| DataSourceController.IndexGetRecords | src/webapp/Participant/Controllers/DataSourceController.cs:64-81 | a successful reply lists exactly one data source per inner element of every row, in order |
| DataSourceController.IndexGetFailures | src/webapp/Participant/Controllers/DataSourceController.cs:89-127 | a 401 evicts and shows the no-data placeholder; another failure shows "Error"; an exception shows the challenge or the sign-in placeholder |
| DataSourceController.IndexGetKeepsRefusedToken | src/webapp/Participant/Controllers/DataSourceController.cs:44-93 | the token is requested for ResourceAppId, and the 401 eviction deletes none of that resource's cached tokens, keeping them in order |
| DataSourceController.SasPolicyAt | src/webapp/Participant/Controllers/DataSourceController.cs:289-292 | the policy grants Read only |
| DataSourceController.SasPolicyWindow | src/webapp/Participant/Controllers/DataSourceController.cs:289-292 | the signature starts 5 minutes before the first clock reading and expires 24 hours after the second, read-only |
| DataSourceController.UploadSpec | src/webapp/Participant/Controllers/DataSourceController.cs:252-306 | the upload reports success exactly when it hands back a URI |
| DataSourceController.UploadFileToAzureBlob | src/webapp/Participant/Controllers/DataSourceController.cs:252-306 | the upload, step by step with its early returns, ends as its specification says |
| DataSourceController.UploadSucceeded | src/webapp/Participant/Controllers/DataSourceController.cs:271-297 | a successful upload put the blob `name + extension` and returns that blob's URI followed by the read-only signature |
| DataSourceController.IndexPost | src/webapp/Participant/Controllers/DataSourceController.cs:130-250 | the POST action ends as its specification says, including the cache |
| DataSourceController.UploadAndRegisterSteps | src/webapp/Participant/Controllers/DataSourceController.cs:163-247 | the upload, download and catalog steps end as their specification says |
| DataSourceController.UnsupportedTypeSendsNothing | src/webapp/Participant/Controllers/DataSourceController.cs:153-157 | a type that is no padded spelling of "csv" shows "Unsupported data source type." after the token request, with no upload and no request |
| DataSourceController.CsvTypeAccepted | src/webapp/Participant/Controllers/DataSourceController.cs:153 | any padded, any-case spelling of "csv" passes the type check |
| DataSourceController.UploadFailureSendsNothing | src/webapp/Participant/Controllers/DataSourceController.cs:163-169 | a failed upload shows the upload error and sends neither DownloadDataSourceFile nor CreateCSVDataSource |
| DataSourceController.UploadedFileNames | src/webapp/Participant/Controllers/DataSourceController.cs:164-196 | the blob, the local file and the catalog location all use `name + extension`; the description defaults to the name; the two requests go out in order |
| DataSourceController.DownloadReplyIgnored | src/webapp/Participant/Controllers/DataSourceController.cs:185-209 | the DownloadDataSourceFile reply never changes the outcome |
| DataSourceController.CreateReplyDecides | src/webapp/Participant/Controllers/DataSourceController.cs:204-247 | the CreateCSVDataSource reply decides: redirect, evict and placeholder on 401, "Error" otherwise, the catalog placeholder on a failed send |
| DataSourceController.MissingFileIsCaught | src/webapp/Participant/Controllers/DataSourceController.cs:163-164 | a missing file ends in the `catch` block, sending nothing |
| DataSourceController.InvalidModelState | src/webapp/Participant/Controllers/DataSourceController.cs:133-249 | an invalid model state shows "Error" and asks for nothing |
| ComputationInfoController.IndexGet | src/webapp/Central/Controllers/ComputationInfoController.cs:26-127 | the GET action ends as the list specification says for computation projects |
| ComputationInfoController.DecodeComputationInfoColumns | src/webapp/Central/Controllers/ComputationInfoController.cs:65-76 | an element decodes exactly when its nine cells convert, and each field comes from its own cell in declared order |
| ComputationInfoController.DecodedIsBroadcast | src/webapp/Central/Controllers/ComputationInfoController.cs:72-75 | every decoded project is a broadcast one, and is enabled exactly when cell 6 is the integer 1 |
| ComputationInfoController.BadFlagFails | src/webapp/Central/Controllers/ComputationInfoController.cs:72 | a flag that is not an Int32 fails the element with the conversion's exception |
| ComputationInfoController.IndexGetRecords | src/webapp/Central/Controllers/ComputationInfoController.cs:61-80 | a successful reply lists exactly one project per inner element of every row, in order |
| ComputationInfoController.IndexGetBadFlag | src/webapp/Central/Controllers/ComputationInfoController.cs:102-122 | a non-integer flag ends in the challenge or in a list ending with "(Sign-in required to view computation projects.)" |
| ComputationInfoController.IndexGetOutcomes | src/webapp/Central/Controllers/ComputationInfoController.cs:43-126 | the request always carries `projectname = ""`; a 401 evicts and shows "(No computation projects exist in the system)"; other failures show "Error" |
| ComputationInfoController.ButtonRequest | src/webapp/Central/Controllers/ComputationInfoController.cs:158-188 | no request is built exactly when the button is neither "Propose" nor "Register" |
| ComputationInfoController.IndexPost | src/webapp/Central/Controllers/ComputationInfoController.cs:129-241 | the POST action ends as its specification says, including the cache |
| ComputationInfoController.ProposeSends | src/webapp/Central/Controllers/ComputationInfoController.cs:158-173 | "Propose" sends the five fields verbatim with broadcast true to ProposeComputation |
| ComputationInfoController.RegisterSends | src/webapp/Central/Controllers/ComputationInfoController.cs:176-183 | "Register" sends "{}" to RegisterComputations |
| ComputationInfoController.OtherButtonRedirects | src/webapp/Central/Controllers/ComputationInfoController.cs:184-188 | any other button redirects after the token request, sending nothing |
| ComputationInfoController.PostOutcomes | src/webapp/Central/Controllers/ComputationInfoController.cs:194-240 | redirect on success; evict and placeholder with "UnexpectedError" on 401; "Error" otherwise; the placeholder with "AuthorizationRequired" on a failed send; "Error" for an invalid model state |
| ComputationInfoJobController.IndexGet | src/webapp/Participant/Controllers/ComputationInfoJobController.cs:26-128 | the GET action ends as the list specification says for jobs |
| ComputationInfoJobController.DecodeJobColumns | src/webapp/Participant/Controllers/ComputationInfoJobController.cs:67-77 | an element decodes exactly when it has nine cells with dates in cells 7 and 8; Id to Status come from cells 0 to 6 |
| ComputationInfoJobController.IndexGetRecords | src/webapp/Participant/Controllers/ComputationInfoJobController.cs:63-81 | a successful reply lists exactly one job per inner element of every row, in order |
| ComputationInfoJobController.IndexGetOutcomes | src/webapp/Participant/Controllers/ComputationInfoJobController.cs:43-127 | a null or empty project name is sent as ""; a 401 evicts and shows the no-projects placeholder; other failures show "Error" |
| ComputationInfoJobController.IndexPost | src/webapp/Participant/Controllers/ComputationInfoJobController.cs:130-222 | the POST action ends as its specification says, including the cache |
| ComputationInfoJobController.MissingProjectNameThrows | src/webapp/Participant/Controllers/ComputationInfoJobController.cs:134-135 | a null or empty project name throws ArgumentNullException("projectname") before any token request or request |
| ComputationInfoJobController.SentJobId | src/webapp/Participant/Controllers/ComputationInfoJobController.cs:137-159 | the job id sent is canonical Guid text that reads back as the parsed id, or as the new Guid when the id is empty or does not parse |
| ComputationInfoJobController.CanonicalJobIdKept | src/webapp/Participant/Controllers/ComputationInfoJobController.cs:137-159 | a job id already in canonical form, which the parser reads as the Guid it denotes, is sent unchanged |
| ComputationInfoJobController.PostOutcomes | src/webapp/Participant/Controllers/ComputationInfoJobController.cs:175-221 | redirect on success; evict and placeholder on 401; "Error" otherwise; the placeholder with "AuthorizationRequired" on any exception, with no re-authentication branch |
| ComputationInfoParticipantController.IndexGet | src/webapp/Central/Controllers/ComputationInfoParticipantController.cs:26-125 | the GET action, with the project name normalised in place, ends as the list specification says |
| ComputationInfoParticipantController.DecodeParticipantColumns | src/webapp/Central/Controllers/ComputationInfoParticipantController.cs:69-74 | an element decodes exactly when it is an array of at least four cells; IsEnabled is cell 3's raw text |
| ComputationInfoParticipantController.IndexGetRecords | src/webapp/Central/Controllers/ComputationInfoParticipantController.cs:65-78 | a successful reply lists exactly one enrolment per inner element of every row, in order |
| ComputationInfoParticipantController.IndexGetOutcomes | src/webapp/Central/Controllers/ComputationInfoParticipantController.cs:32-124 | a null or empty project name is sent as ""; a 401 evicts and shows "(No participants have enrolled in a project)"; other failures show "Error" |
| ComputationInfoParticipantController.IndexPost | src/webapp/Central/Controllers/ComputationInfoParticipantController.cs:127-215 | the POST action ends as its specification says, including the cache |
| ComputationInfoParticipantController.EnrolmentForwarded | src/webapp/Central/Controllers/ComputationInfoParticipantController.cs:149-163 | projectname, participantname and operation = submitbutton go verbatim to EnrollInProject |
| ComputationInfoParticipantController.PostOutcomes | src/webapp/Central/Controllers/ComputationInfoParticipantController.cs:168-214 | redirect on success; evict and placeholder on 401; "Error" otherwise; "(Sign-in required to view project participants.)" with "AuthorizationRequired" on an exception; "Error" for an invalid model state |
| ParticipantController.IndexGet | src/webapp/Participant/Controllers/ParticipantController.cs:26-129 | the GET action ends as the list specification says for participants |
| ParticipantController.DecodeParticipantColumns | src/webapp/Participant/Controllers/ParticipantController.cs:67-76 | an element decodes exactly when its Guid, Int32 and date cells convert; every field comes from its own cell, enabled exactly when cell 6 is 1 |
| ParticipantController.IndexGetRecords | src/webapp/Participant/Controllers/ParticipantController.cs:63-82 | a successful reply lists exactly one participant per inner element of every row, in order |
| ParticipantController.IndexGetBadCell | src/webapp/Participant/Controllers/ParticipantController.cs:104-123 | a bad Guid, integer or date ends in the challenge or in a list ending with "(Sign-in required to view participants.)" |
| ParticipantController.IndexGetOutcomes | src/webapp/Participant/Controllers/ParticipantController.cs:40-128 | the request is "{}" to GetParticipants; a 401 evicts and shows the no-participants placeholder; other failures fall through to "Error" |
| ParticipantController.IndexPost | src/webapp/Participant/Controllers/ParticipantController.cs:131-212 | the POST action ends as its specification says, including the cache |
| ParticipantController.RegisterMasterSent | src/webapp/Participant/Controllers/ParticipantController.cs:149-165 | with a token for ResourceAppId, the five fields go verbatim to RegisterMaster on the local web API |
| ParticipantController.PostOutcomes | src/webapp/Participant/Controllers/ParticipantController.cs:167-211 | a valid model state never reaches "Error": redirect, evict with "UnexpectedError", "Application error", or "(No items in list)" |
| ParticipantController.PostKeepsRefusedToken | src/webapp/Participant/Controllers/ParticipantController.cs:149-181 | the token is requested for ResourceAppId, and the 401 eviction deletes none of that resource's cached tokens |
| ModelSchemaController.IndexGet | src/webapp/Participant/Controllers/ModelSchemaController.cs:26-125 | the GET action ends as the list specification says for schemas |
| ModelSchemaController.DecodeSchemaColumns | src/webapp/Participant/Controllers/ModelSchemaController.cs:69-74 | an element decodes exactly when it is an array of at least five cells; Name to SchemaJSON come from cells 1 to 4 |
| ModelSchemaController.IndexGetRecords | src/webapp/Participant/Controllers/ModelSchemaController.cs:65-78 | a successful reply lists exactly one schema per inner element of every row, in order |
| ModelSchemaController.IndexGetOutcomes | src/webapp/Participant/Controllers/ModelSchemaController.cs:44-124 | the request always carries `schemaname = ""`; a 401 evicts and shows "(No data schemas exist in the system)"; other failures show "Error" |
| ModelSchemaController.IndexPost | src/webapp/Participant/Controllers/ModelSchemaController.cs:127-206 | the POST action, with the description defaulted in place, ends as its specification says |
| ModelSchemaController.RegisterSchemaSent | src/webapp/Participant/Controllers/ModelSchemaController.cs:143-160 | name and schema go verbatim with broadcast true to RegisterSchema; a null or empty description is replaced by the name |
| ModelSchemaController.PostOutcomes | src/webapp/Participant/Controllers/ModelSchemaController.cs:165-205 | redirect on success; evict and placeholder on 401; "Error" otherwise; "(No schemas exist in the data catalog)" on an exception; "Error" for an invalid model state |

## Left out

- **HTTP transport and async/await.** Each `SendAsync` is a `Reply` input: a status and body, or the exception it throws.
- **ADAL.** `AcquireTokenAsync` is a `TokenReply` input. `NaiveSessionCache` and the signed-in user's object-id claim only choose which cache is used. The cache is a sequence of items.
- **ADAL's own cache lookup and store.** `AcquireTokenAsync` looks the token up in the cache and stores a newly issued one there. Neither step is modelled. The `cache` input of every action stands for the cache after acquisition, and the cache each action returns covers only what the action itself does, which is the 401 eviction. Nothing ties the issued token to a cache item.
- WebApi.ListIndexTrace: the cache it speaks of is the action's own, so a 2xx reply leaves the `cache` input as it was. ADAL's store of a newly issued token, made during acquisition, is not modelled (see the line on ADAL's cache above).
- WebApi.ListIndexCatches: promises only that the action deletes nothing. A token that ADAL stored while acquiring it counts as part of the `cache` input.
- DataSourceController.IndexGetKeepsRefusedToken: shows that the eviction spares every ResourceAppId item of the cache after acquisition. It does not show that the issued token is one of them, because acquisition's store is not modelled.
- ParticipantController.PostKeepsRefusedToken: the same as IndexGetKeepsRefusedToken. The ResourceAppId items survive the 401, but the issued token is not shown to be among them.
- **Azure Storage and DataMovement.** `CloudStorageAccount.Parse`, the blob references, `TransferManager.UploadAsync` and `GetSharedAccessSignature` become the booleans and functions of `Storage`.
  - The unawaited `CreateIfNotExistsAsync` is recorded as an event and nothing waits for it.
  - The parallel-operations setting has no observable effect here.
  - `DateTimeOffset.UtcNow` is two integer inputs in minutes.
- **`GetBlobSasUri`.** It is never called.
- **Parsing.** Parsing JSON text, `Guid.Parse`/`Guid.TryParse` and `DateTime.Parse` are the partial functions of `Library`, so their accepted formats and culture rules are not modelled. The objects `parseJson` returns are taken to have distinct member names, as Newtonsoft's reader keeps one property per name; `Json.Children` of an object with a repeated name would list it twice. `Guid.NewGuid()` is an input.
- **Rendering.** The JSON rendering of a non-scalar token (its `ToString()`) is the abstract `Library.render`.
- **Exception messages.** The messages of the runtime's own exceptions (null reference, index out of range, overflow) are fixed illustrative texts. Only the fact that the `catch` block appends them after "AuthorizationRequired" is modelled.
- **MVC rendering.** `View`, `ViewBag`, `RedirectToAction` and `ChallengeResult` become the `Outcome` datatype. `ModelState.IsValid` is a boolean input.
- ClrText.ToLower: lowers the ASCII capitals only. Non-ASCII letters that .NET's `ToLower()` maps to other letters (U+212A KELVIN SIGN to 'k', U+0130 to 'i', accented capitals) stay unchanged in the model. No non-ASCII character lowers to 'c', 's' or 'v', and lowering never creates or removes white space, so the csv type check is unaffected.
- ClrText.ExtensionFrom: models `Path.GetExtension` of .NET on Linux, where the data directory `/var/lib/mlsdistcomp/data/` lives: only `/` ends the scan. On Windows, `\` and the volume separator `:` would end it too. The check for invalid path characters is not modelled.
- **The `ComputationInfoParticipant` model class.** It is not part of this model. Its four string properties are taken from the controller's assignments.
- **Other files.** `Startup.cs` (dependency injection and middleware), `HomeController` (static views) and the `aad.py` script hold no controller decision logic.
