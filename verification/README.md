# Verified model of the compatibility checker, the key cache and the release tools

This project models the parts of the repository that decide whether something is safe to go on, and proves what their
answers mean.

- **The OpenAPI compatibility checker** (`scripts/openapi_compatibility.py`). `Json`, `Text`, `Reference` and
  `Version` hold its values, strings, `$ref` chains and version numbers; `SchemaRules` and `DocumentRules` say when it
  is silent and where it fails, `SchemaChanges` and `DocumentChanges` which changes it finds otherwise, and `Catalogue`
  what each of these says about the documents; `SchemaComparison` and `DocumentComparison` are its functions, appending
  to one shared report. `Semantics` is an independent oracle for when a JSON value is valid against a schema (JSON
  Schema Core 2020-12, sections 10.2 and 10.3, and JSON Schema Validation 2020-12, section 6) and `Calls` one for calls
  and replies. `Soundness`, `Inclusion` and `Calls` prove that an empty report means inclusion of what is accepted,
  `Exactness` and `FalseAlarms` that relaxing is not reported; `SchemaOrder` and `DocumentOrder` that compatibility is
  a preorder; `Termination` and `Unfolding` that only the baseline drives the recursion, and `Completion`, with
  `Heredity` and `DocumentParts`, when comparing documents completes; `Gaps` why the theorems ask for their
  hypotheses, by changes that are not reported; `Witnesses` that the hypotheses can be met.
- **The JWKS key cache** (`apps/api/src/auth/supabase-token-verifier.ts`). `Jwks` reads a key set; `KeyCache` has the
  verifier object, cut at its awaits, and the system of all interleavings of concurrent calls.
- **The runtime gate** (`scripts/verify_m0_runtime.py`). `Host` is the machine, whose commands may end in any way and
  do anything within their footprint; `Ownership` says what a run answers for; `GateLog` reads the log of a run;
  `RuntimeGate` is the gate object, and `GateRuns` has full runs of it.
- **The release promoter** (`scripts/promote_release.py`). `Receipts` has the receipt, the log of a run and the
  protocol as a property of every prefix of the log, that is, of every point where the process may die; `Promotion` is
  the program.
- **Three string algorithms**: the chunked search of `scripts/check_web_bundle_secrets.py` (`BundleScan`), the
  redaction loop of `scripts/verify_p2_e2e.py` (`Redaction`) and the checksum payloads of
  `scripts/acquire_comelec_turnout.py` (`Payloads`, on `Ordering`, and `Confusions` for what their hypotheses
  exclude).

The environment is never fixed: providers, Docker, the network and the clock are arbitrary functions or arbitrary steps,
so every theorem is about all of their behaviours. `dafny verify dfyconfig.toml` checks the project.

## What the proofs turned up

- The checker's silence does not imply compatibility without hypotheses. Each of these goes unreported and breaks
  clients (module `Gaps`): a `const` added to a request; 1 for `true`, which Python takes for equal; a schema where
  the baseline has none; a dropped `const: null` on a response; a narrower target behind a `$ref` inside a
  composition; a schema for a property or for elements the baseline left open; a new schema-valued
  `additionalProperties`; the schema `false`; a new response property where the baseline is closed; a parameter
  renamed behind a shared `$ref`; a shared parameter overridden in place; a required response header made optional; a
  schema under the `content` of a parameter or a response header.
- The conditions under which silence does mean compatibility are `Soundness.Covered` along the schemas and
  `Calls.DocumentCovered` and `Calls.RepliesCovered` on operations. What the checker does not read (unread keywords, a
  schema-valued `additionalProperties`, `patternProperties`, `prefixItems`, compositions, the `content` of parameters
  and headers) has to be kept, with what its references lead to; no schema, member, element schema or `const` appears
  that the given side does not have, and what accepts nothing accepted nothing before; values compared by Python's
  equality agree in kind, and enum and bounds have the types the checker compares; `$dynamicRef` does not occur; the
  references inside a composition were followed on the way to it on both sides or on neither; parameters have one key
  for each location and name; a required header stays required. `PlainRefs`: on the side whose acceptance is concluded
  a `$ref` stands alone, with at most a summary and a description, everywhere in the document. An unchanged schema in
  an unchanged document meets the conditions on schemas as soon as its enums and bounds have such types and
  `$dynamicRef` does not occur (`Soundness.CoveredInPlace`).
- Reports on `required`, `enum`, bounds and a boolean `additionalProperties` are exact: they are made exactly when
  something admitted is lost, on a response for `required` also when the members asked for differ at all (module
  `Exactness`). Others are not: `const`, `pattern`, the content keywords and compositions are reported at any change
  that Python sees, and a list of types that grows on a request is, although it admits more
  (`Exactness.TypeIsExact`).
- A schema that refers to itself below a property cannot even be compared with itself: no stack suffices
  (`Gaps.RecursiveSchemaOverflows`). A document whose references lead somewhere can exactly when all schemas that the
  comparison reaches unfold within the stack (`Completion.SelfComparison`).
- Two silent steps compose to a silent one if the first schema's `const` is not null and the middle schema's enum and
  bounds have the types the checker compares; both conditions are needed (`Gaps.NullConstDoesNotCompose`,
  `Gaps.UnreadableBoundDoesNotCompose`).
- The preflight of the runtime gate checks containers and image tags but not volumes: a run keeps every found volume
  except those of its own Compose and Supabase projects (`Ownership.FoundVolumesSurvive`), and those it does remove,
  even when it ends normally (`GateRuns.PassingRunTakesFoundVolumes`).
- The cleanup of the gate names whatever it leaves behind unless its log shows an exception that no handler names (a
  crash such as an undecodable output, or an interrupt while the directory is removed); such an exception ends it
  early and takes the failure list with it (`GateRuns.InterruptedRemovalLeavesTheDirectory`).
- Redaction is complete exactly for values that cannot meet the mark `[REDACTED]` (`Redaction.CanMeetMark`); the order
  of the passes does not matter for this, only for what is left of a longer value.
- Separators in dates cannot confuse the normalized payload; line breaks can, between manifests that repeat a year. A
  line break in an artifact key can make two bundles that pass every earlier check look the same (module
  `Confusions`).

## Model

| member | source | states |
|---|---|---|
| `Inclusion.RequestSoundness` | scripts/openapi_compatibility.py:252-398 | if comparing two schemas in direction "request" completes without a change, then on the covered fragment every JSON value the baseline schema accepts is accepted by the candidate schema, each side resolved in its own document; the fragment admits whatever the checker does not read as long as it is kept, references inside it included |
| `Inclusion.ResponseSoundness` | scripts/openapi_compatibility.py:252-398 | the dual: in direction "response" every value the candidate accepts the baseline accepts |
| `Inclusion.AcceptanceCarriesOver` | scripts/openapi_compatibility.py:252-355 | the induction behind both directions: with an empty report, acceptance on the side that is given carries over to the other through properties, items, bounds, compositions and references of both documents |
| `Inclusion.ResolveKeeps` | scripts/openapi_compatibility.py:401-417 | a value valid against a reference is valid against what `_resolve` makes of it, for every chain of references, cyclic ones included, with exactly the references of the chain used up |
| `Inclusion.ResolvePlain` | scripts/openapi_compatibility.py:401-417 | the converse: for references that stand alone, validity against the resolved schema, with the chain used up, gives validity against the reference |
| `Soundness.CleanRequestNarrows` | scripts/openapi_compatibility.py:267-398 | no change between two resolved request schemas means the candidate asserts no more, keyword by keyword |
| `Soundness.CleanResponseNarrows` | scripts/openapi_compatibility.py:267-398 | no change between two resolved response schemas means the candidate asserts no less, keyword by keyword |
| `Soundness.EnumNarrows` | scripts/openapi_compatibility.py:284-299 | the enum rule means inclusion of the listed values, in the sense the direction asks for |
| `Soundness.NarrowedAsserts` | scripts/openapi_compatibility.py:252-355 | a value that meets the given side's own assertions meets the other side's |
| `Exactness.RequiredIsExact` | scripts/openapi_compatibility.py:301-310 | a request is reported exactly when some object had the required members before and lacks one now, a response exactly when the two sides ask for different members |
| `Exactness.EnumIsExact` | scripts/openapi_compatibility.py:284-299 | lists are reported exactly when some value is listed on the side that is given and not on the other |
| `Exactness.LowerBoundIsExact` | scripts/openapi_compatibility.py:358-390 | a lower bound is reported exactly when some quantity is admitted on the side that is given and not on the other |
| `Exactness.UpperBoundIsExact` | scripts/openapi_compatibility.py:358-390 | the same for an upper bound |
| `Exactness.AdditionalIsExact` | scripts/openapi_compatibility.py:342-355 | a boolean `additionalProperties` is reported exactly when some value of a member without a name is accepted on the side that is given and not on the other |
| `Exactness.TypeIsExact` | scripts/openapi_compatibility.py:269-276 | types are not reported exactly when they are the same with repetition or the other side imposes none, so a list of types that only grows is reported |
| `Exactness.RelaxingIsSilent` | scripts/openapi_compatibility.py:252-398 | no false alarm: a schema that, at every level and through the references of both documents, only loses or widens its enum, bounds, required members (on a response it keeps these) and closedness, keeps const, pattern, format and compositions, and drops or keeps its type, is compared in silence, whatever else changes |
| `FalseAlarms.RelaxedDocumentIsSilent` | scripts/openapi_compatibility.py:17-50 | no false alarm in a whole document: if what the baseline has stays, requests and their parameters and bodies are only relaxed and responses only narrowed, and nothing new is required, the comparison completes and finds nothing |
| `Soundness.SharedValid` | scripts/openapi_compatibility.py:393-398 | a schema whose references mean the same in both documents, through all they lead to, is valid for the same values in both; comparing compositions as values relies on it |
| `Soundness.FrozenAccepts` | scripts/openapi_compatibility.py:342-355 | hence what the checker does not read, such as the schema value of `additionalProperties`, accepts the same when it is kept |
| `Soundness.CoveredInPlace` | scripts/openapi_compatibility.py:252-398 | a schema kept as it is in a document kept as it is stays in the fragment along the whole walk, whatever its keywords, references and recursion, if the enums and bounds on the way are of the types the checker compares and `$dynamicRef` does not occur |
| `Witnesses.RecursionIsCovered` | scripts/openapi_compatibility.py:393-398 | a schema that refers to itself below `anyOf` is compared with itself in silence at every stack and is in the fragment there |
| `Calls.CallCompatibility` | scripts/openapi_compatibility.py:17-50 | with no major bump and an empty report, every call (path, method, arguments by location and name, media type and body) valid against the baseline document is valid against the candidate document; arguments are judged by `schema` and by the schema under `content`, and overriding of parameters is that of OpenAPI, by location and name |
| `Calls.DictionaryIsFaithful` | scripts/openapi_compatibility.py:193-200 | the dictionary keyed by `$ref` or by location and name says of every set of arguments what OpenAPI's overriding by location and name says, where its keys tell apart the same entries |
| `Calls.WrittenOutMatch` | scripts/openapi_compatibility.py:420-425 | which they do for parameters that are written out in place |
| `Calls.ReplyCompatibility` | scripts/openapi_compatibility.py:129-182 | a reply the candidate may send for a known status and media type, with the headers the candidate requires, is valid against the baseline, its required headers and the schemas of its headers, under `schema` and under `content`, included |
| `Calls.ReplyCompatibilityOfDocuments` | scripts/openapi_compatibility.py:27-50 | the same for whole documents and every operation the baseline has: the status is still answered, and with replies the baseline accepts |
| `Calls.RequiredParametersWereRequired` | scripts/openapi_compatibility.py:83-222 | whatever parameter the candidate requires after merging path-level and operation-level lists, the baseline required under the same key |
| `Calls.OwnParametersWin` | scripts/openapi_compatibility.py:96-103 | in the merged dictionary the own parameters of an operation replace those of its path, and all others of both stay |
| `Calls.LastEntryWins` | scripts/openapi_compatibility.py:193-200 | the merged dictionary holds for every key exactly the last entry with that key, so operation-level parameters override path-level ones |
| `Completion.SelfComparison` | scripts/openapi_compatibility.py:17-50 | compatibility is reflexive, completion included, exactly where it can be: a document whose local references all lead somewhere is compared with itself without an exception and without a report if and only if every schema the comparison reaches unfolds within the stack |
| `Completion.AcyclicDocumentUnfolds` | scripts/openapi_compatibility.py:17-50 | which they do, within a depth computed from the document, when its references have no cycles |
| `Completion.SchemaSelfComparison` | scripts/openapi_compatibility.py:252-355 | the same equivalence for one schema of a document, in either direction |
| `Completion.DocumentCompletes` | scripts/openapi_compatibility.py:17-50 | the comparison of two documents without dangling references ends without an exception if the compared schemas of the baseline unfold within the stack, whatever the candidate's cycles |
| `Unfolding.DocumentWalkEnds` | scripts/openapi_compatibility.py:17-50 | against any candidate at all, dangling and cyclic ones included, the walk through such a baseline never exhausts the stack |
| `Unfolding.DocumentOverflows` | scripts/openapi_compatibility.py:17-50 | and a baseline of which some compared schema does not unfold exhausts it when compared with itself |
| `Completion.DocumentResolves` | scripts/openapi_compatibility.py:401-417 | without dangling references on either side no part of the comparison raises one |
| `Termination.SelfComparisonOverflows` | scripts/openapi_compatibility.py:252-355 | exactly the schemas that do not unfold within the stack exhaust it when compared with themselves |
| `DocumentOrder.DocumentTransitive` | scripts/openapi_compatibility.py:17-50 | if A to B and B to C complete with empty reports and majors do not decrease, A to C completes with an empty report, references being resolved in three documents |
| `SchemaOrder.SchemaTransitive` | scripts/openapi_compatibility.py:252-398 | two compatible steps compose for schemas resolved in three different documents |
| `Termination.FiniteBaselineTerminates` | scripts/openapi_compatibility.py:252-355 | if the baseline unfolds within n frames the comparison never runs out of an n-frame stack, however cyclic the candidate is |
| `Termination.StackIndependent` | scripts/openapi_compatibility.py:252-355 | once the stack suffices, a larger one changes neither the exceptions nor the verdict |
| `Termination.AcyclicUnfolds` | scripts/openapi_compatibility.py:401-417 | with acyclic references every schema of the baseline unfolds within a depth computed from the ranks of its references and the height of the document |
| `Termination.AcyclicBaselineTerminates` | scripts/openapi_compatibility.py:252-417 | for a baseline with acyclic references the comparison with any candidate ends from that depth on, with the same outcome at every greater one |
| `Reference.FollowReferences` | scripts/openapi_compatibility.py:401-417 | the loops of `_resolve` end on every document and compute the chain of references not yet visited, or the error for a pointer that leads nowhere |
| `Reference.PointerReachesPath` | scripts/openapi_compatibility.py:401-417 | for every nonempty path of mapping keys, escaping and joining the keys and walking the pointer reaches exactly the value at the path, and fails exactly when the path does |
| `Reference.ResolvePointer` | scripts/openapi_compatibility.py:401-417 | a `$ref` to such a path is followed there and then on from there |
| `Reference.UnescapeEscape` | scripts/openapi_compatibility.py:411-411 | undoing `~1` and then `~0` recovers every key from its escaped form |
| `Reference.OtherOrderConfusesKeys` | scripts/openapi_compatibility.py:411-411 | the opposite order of the two replacements would not: a key is named that comes back changed |
| `Text.SplitJoin` | scripts/openapi_compatibility.py:410-410 | splitting at the separator undoes joining, for parts without it |
| `SchemaComparison.CompareSchema` | scripts/openapi_compatibility.py:252-268 | the method appends to the shared report, ends with an exception exactly when the walk can meet one, and otherwise has appended exactly the changes between the two schemas, each with its place and kind; which those are `Exactness` and `Soundness` say in terms of values |
| `SchemaComparison.CompareResolved` | scripts/openapi_compatibility.py:267-355 | the same for two resolved schemas, keyword by keyword |
| `SchemaComparison.CompareTypes` | scripts/openapi_compatibility.py:269-276 | one change at `type`, exactly when the types differ as multisets after the absence rules of the direction |
| `SchemaComparison.CompareConst` | scripts/openapi_compatibility.py:278-279 | one change exactly when a `const` that counts is not met |
| `SchemaComparison.CompareEnum` | scripts/openapi_compatibility.py:284-299 | one change exactly when values are removed from a request enum or added to a response enum |
| `SchemaComparison.CompareRequired` | scripts/openapi_compatibility.py:301-310 | on a request one change for every property that becomes required and none else, on a response also one for every property that ceases to be |
| `SchemaComparison.CompareProperties` | scripts/openapi_compatibility.py:312-328 | a change for every property that is gone, and for the shared ones exactly what comparing their schemas adds, in both directions |
| `SchemaComparison.CompareAdditional` | scripts/openapi_compatibility.py:342-355 | one change exactly when closing or opening the schema breaks the direction |
| `SchemaComparison.CompareItems` | scripts/openapi_compatibility.py:331-341 | exactly what comparing the element schemas adds, when the baseline has one |
| `SchemaComparison.CompareKeywords` | scripts/openapi_compatibility.py:280-282 | one change for every keyword of the list whose values differ, at that keyword |
| `SchemaComparison.CompareBounds` | scripts/openapi_compatibility.py:358-390 | one change for every lower bound that rises and every upper bound that falls on a request, or the other way round on a response, at that bound |
| `SchemaComparison.CompareMinimum` | scripts/openapi_compatibility.py:358-376 | one change at a lower bound, exactly when it breaks the direction |
| `SchemaComparison.CompareMaximum` | scripts/openapi_compatibility.py:377-390 | one change at an upper bound, exactly when it breaks the direction |
| `SchemaChanges.CleanFindsNothing` | scripts/openapi_compatibility.py:252-398 | the changes between two schemas are none exactly when the pair is clean, which ties what is reported to all theorems about clean pairs |
| `SchemaComparison.CompareCompositions` | scripts/openapi_compatibility.py:393-398 | one change for every composition that differs |
| `SchemaComparison.Report.Append` | scripts/openapi_compatibility.py:17-22 | the report grows by one change at its end |
| `SchemaComparison.Report.AppendEach` | scripts/openapi_compatibility.py:301-310 | the report grows by one change per name and nothing else |
| `DocumentComparison.FindBreakingChanges` | scripts/openapi_compatibility.py:17-50 | raises exactly when the walk can; otherwise the list holds exactly the changes between the documents, with their places, and is empty after a major bump; which changes those are `Catalogue` says entry by entry |
| `DocumentComparison.ComparePaths` | scripts/openapi_compatibility.py:27-50 | a change for every removed path, and for the others exactly what comparing the path items adds |
| `DocumentComparison.ComparePathItem` | scripts/openapi_compatibility.py:33-49 | a change for every removed operation, and for the others what comparing them adds, merged with their path-level parameters |
| `DocumentComparison.CompareOperation` | scripts/openapi_compatibility.py:83-157 | exactly what identity, parameters, body and responses of one operation add |
| `DocumentComparison.CompareRequestBody` | scripts/openapi_compatibility.py:105-127 | a body that disappears, appears as required or becomes required is one change, and the media types of two declared bodies are compared as requests |
| `DocumentComparison.CompareResponses` | scripts/openapi_compatibility.py:129-157 | a missing status is one change, a present one is compared |
| `DocumentComparison.CompareResponseHeaders` | scripts/openapi_compatibility.py:159-182 | a removed header is one change, the schema of a present one is compared as a response |
| `DocumentComparison.CollectParameters` | scripts/openapi_compatibility.py:193-200 | the dictionary of resolved parameters by key, later entries replacing earlier ones, or the error of one that does not resolve |
| `DocumentComparison.CompareParameters` | scripts/openapi_compatibility.py:185-222 | removed parameters, new requirements and what comparing the schemas as requests adds, and nothing else |
| `DocumentComparison.CompareAddedParameters` | scripts/openapi_compatibility.py:220-222 | one change for every parameter that is new and required |
| `DocumentComparison.CompareContent` | scripts/openapi_compatibility.py:225-249 | removed media types, and for the shared ones what comparing their schemas in the given direction adds |
| `DocumentComparison.CompareSecuritySchemes` | scripts/openapi_compatibility.py:70-80 | one change for every removed and one for every changed security scheme |
| `DocumentComparison.CompareProblemCodes` | scripts/openapi_compatibility.py:61-67 | one change for every stable problem code that is gone |
| `DocumentChanges.CleanDocumentsFindNothing` | scripts/openapi_compatibility.py:17-50 | the changes between two documents are none exactly when they are clean |
| `Catalogue.PathEntries` | scripts/openapi_compatibility.py:27-38 | a removed path is entered exactly for a path that only the baseline has, and a removed operation exactly for one of the eight methods that only the baseline has there |
| `Catalogue.ComponentEntries` | scripts/openapi_compatibility.py:61-80 | problem codes and security schemes: an entry exactly for each that is gone, and for each scheme that is another value |
| `Catalogue.IdentityEntries` | scripts/openapi_compatibility.py:92-96 | an entry exactly for another `operationId`, and one for another `security` |
| `Catalogue.ParameterEntries` | scripts/openapi_compatibility.py:185-222 | a parameter is entered as removed, as newly required, or as added and required exactly when it is, under its location and name |
| `Catalogue.BodyEntries` | scripts/openapi_compatibility.py:105-127 | a request body is entered as removed, as added and required, or as newly required exactly when it is |
| `Catalogue.ResponseEntries` | scripts/openapi_compatibility.py:129-157 | a response is entered as removed exactly when its status is gone |
| `Catalogue.HeaderEntries` | scripts/openapi_compatibility.py:159-182 | a response header is entered as removed exactly when it is gone |
| `Catalogue.MediaEntries` | scripts/openapi_compatibility.py:225-249 | a media type is entered as removed exactly when it is gone |
| `Catalogue.RequiredEntries` | scripts/openapi_compatibility.py:301-310 | a name is entered as newly required exactly when only the candidate lists it, and as no longer required exactly on a response and when only the baseline lists it |
| `Catalogue.BoundEntries` | scripts/openapi_compatibility.py:358-390 | a bound is entered as changed, added or removed exactly for the ten keywords and the changes that break the direction |
| `Version.MajorRoundTrip` | scripts/openapi_compatibility.py:53-58 | every semantic version is read with its own major number, pre-release and build parts included |
| `Version.MajorNeedsForm` | scripts/openapi_compatibility.py:53-58 | whatever is read with a nonzero major has the form of a semantic version |
| `Version.DocumentRoundTrip` | scripts/openapi_compatibility.py:53-58 | a document whose `info` has such a version is read with its major number |
| `Gaps.AddedConstIsSilent` | scripts/openapi_compatibility.py:278-279 | a `const` added to a request goes unreported although it rejects values the baseline accepts: the fragment must exclude it |
| `Gaps.TrueForOneIsSilent` | scripts/openapi_compatibility.py:278-279 | Python equality lets 1 replace `true` without a report |
| `Gaps.SchemaFromNowhereIsSilent` | scripts/openapi_compatibility.py:261-262 | a schema that appears where the baseline has none is never reported, whatever it demands |
| `Gaps.DroppedNullConstIsSilent` | scripts/openapi_compatibility.py:278-279 | a baseline `const: null` may be dropped from a response without a report |
| `Gaps.ReferenceInCompositionIsSilent` | scripts/openapi_compatibility.py:393-398 | a reference inside a composition may come to mean something narrower without a report |
| `Gaps.NewPropertyIsSilent` | scripts/openapi_compatibility.py:312-328 | a property the baseline left open may get a schema on a request without a report |
| `Gaps.AddedItemsIsSilent` | scripts/openapi_compatibility.py:331-341 | an element schema may be added on a request without a report |
| `Gaps.AdditionalSchemaIsSilent` | scripts/openapi_compatibility.py:342-355 | a schema as value of `additionalProperties` may narrow a request without a report |
| `Gaps.FalseSchemaIsSilent` | scripts/openapi_compatibility.py:428-429 | the schema `false` reads as one without keywords, so a request that accepts nothing goes unreported |
| `Gaps.NewResponsePropertyIsSilent` | scripts/openapi_compatibility.py:312-328 | on a response a new property goes unreported even where the baseline is closed |
| `Gaps.RenamedParameterIsSilent` | scripts/openapi_compatibility.py:420-425 | a shared reference hides that the parameter behind it was renamed, and old calls stop being valid |
| `Gaps.OverrideIsSilent` | scripts/openapi_compatibility.py:193-200 | a shared parameter overridden in place has two keys, so a narrower override goes unreported |
| `Gaps.OptionalHeaderIsSilent` | scripts/openapi_compatibility.py:159-182 | a required response header may become optional without a report |
| `Gaps.NarrowedContentIsSilent` | scripts/openapi_compatibility.py:185-222 | the schema under the `content` of a parameter may be narrowed without a report, and old calls stop being valid |
| `Gaps.WidenedHeaderIsSilent` | scripts/openapi_compatibility.py:159-182 | that under the `content` of a response header may be widened without a report |
| `Gaps.RecursiveSchemaOverflows` | scripts/openapi_compatibility.py:252-355 | a baseline schema that refers to itself below a property exhausts every stack, even compared with itself |
| `Gaps.NullConstDoesNotCompose` | scripts/openapi_compatibility.py:278-279 | why transitivity asks for non-null `const`: dropping a null one and adding another are each silent, both together are reported |
| `Gaps.UnreadableBoundDoesNotCompose` | scripts/openapi_compatibility.py:367-376 | why transitivity asks for bounds of a comparable type in the middle: a bound that is no number hides that it rises |
| `Witnesses.RaisedLimitIsCovered` | scripts/openapi_compatibility.py:377-386 | raising a request limit is compatible and meets every hypothesis of request soundness |
| `Witnesses.ServedDocumentIsCompatible` | scripts/openapi_compatibility.py:17-50 | a document with an operation whose parameter and required body refer to a schema with a named member, the same document with the limit on that member raised, and a call with both meet every hypothesis of call compatibility |
| `Json.PyEqIsIdentityUpToKinds` | scripts/openapi_compatibility.py:278-282 | Python equality, by which the checker compares values, is identity exactly where no boolean stands opposite a number and no int opposite a float |
| `Jwks.ParseKeys` | apps/api/src/auth/supabase-token-verifier.ts:248-287 | the loop succeeds exactly on a list of objects whose eligible entries import and have distinct ids, and then the map holds the eligible entries and nothing else |
| `Jwks.FetchKeys` | apps/api/src/auth/supabase-token-verifier.ts:227-294 | keys come back exactly from an installable document, and they are nonempty and exactly its eligible entries; every other answer is a dependency failure |
| `Jwks.HoldsDetermines` | apps/api/src/auth/supabase-token-verifier.ts:248-287 | the eligible entries of a document determine the map |
| `Jwks.EligibleMembers` | apps/api/src/auth/supabase-token-verifier.ts:255-270 | an entry is eligible exactly if it is an object with a nonempty `kid`, `alg` ES256 or RS256, and `key_ops` with the one operation `verify` |
| `Jwks.InstalledKeys` | apps/api/src/auth/supabase-token-verifier.ts:248-287 | an installed key set has a key exactly for the ids of eligible entries, each the import of its own entry |
| `KeyCache.SupabaseTokenVerifier.constructor` | apps/api/src/auth/supabase-token-verifier.ts:77-80 | a new verifier has no keys, and its expiry and cooldown are in the past |
| `KeyCache.SupabaseTokenVerifier.Refresh` | apps/api/src/auth/supabase-token-verifier.ts:205-218 | `refreshKeys` up to its first await: nothing, joining the fetch under way, or starting one under the cooldown |
| `KeyCache.SupabaseTokenVerifier.Finish` | apps/api/src/auth/supabase-token-verifier.ts:219-294 | the end of a fetch: on success keys and expiry are replaced, otherwise both stay; either way the shared promise is cleared |
| `KeyCache.SupabaseTokenVerifier.BeginKeyFor` | apps/api/src/auth/supabase-token-verifier.ts:188-193 | the expiry check of `keyFor`: an unexpired cache is used untouched, otherwise an unforced refresh is awaited |
| `KeyCache.SupabaseTokenVerifier.LookUp` | apps/api/src/auth/supabase-token-verifier.ts:194-198 | a cached key is returned without touching the cache, a missing one forces a refresh |
| `KeyCache.SupabaseTokenVerifier.LookUpAgain` | apps/api/src/auth/supabase-token-verifier.ts:196-202 | after a forced refresh the key is returned if it is there |
| `KeyCache.StepKeeps` | apps/api/src/auth/supabase-token-verifier.ts:188-294 | every step of every interleaving keeps the invariant: the cache agrees with the last install, one fetch at most, starts spaced, tasks sound |
| `KeyCache.RunKeeps` | apps/api/src/auth/supabase-token-verifier.ts:188-294 | the invariant holds in every state of every run of any number of concurrent calls |
| `KeyCache.ReturnedKeysAreFresh` | apps/api/src/auth/supabase-token-verifier.ts:188-203 | any key `keyFor` returns comes from a key set installed less than the TTL before that call's own expiry check, or after it |
| `KeyCache.AtMostOneFetch` | apps/api/src/auth/supabase-token-verifier.ts:209-224 | in every run at most one fetch is in flight, and one is exactly while the shared promise is set |
| `KeyCache.ForcedFetchesAreSpaced` | apps/api/src/auth/supabase-token-verifier.ts:213-218 | the i-th and the j-th forced start are at least (j - i) cooldowns apart, whether or not the fetches succeed |
| `KeyCache.ExpiryFetchesWaitForTtl` | apps/api/src/auth/supabase-token-verifier.ts:206-208 | an unforced start comes at least the TTL after every install before it |
| `KeyCache.CacheMirrorsSource` | apps/api/src/auth/supabase-token-verifier.ts:288-293 | in every reachable state the cache is empty or exactly the eligible entries of the last document that could be installed |
| `KeyCache.FailedFetchChangesNothing` | apps/api/src/auth/supabase-token-verifier.ts:227-291 | a failed fetch, a duplicate eligible id or an empty eligible set leaves keys and expiry alone and fails exactly the calls that waited for it |
| `KeyCache.KnownKeyIsReturned` | apps/api/src/auth/supabase-token-verifier.ts:188-198 | in every run, a call that looks up a key of the newest install is answered with that key, and nothing is sent |
| `KeyCache.MissingKeyIsFetched` | apps/api/src/auth/supabase-token-verifier.ts:194-218 | in every run, a call that looks up any other key waits for the fetch in flight or for a new one sent now; only while a forced fetch is less than ten seconds old is none sent |
| `KeyCache.ExpiredCacheIsRefreshed` | apps/api/src/auth/supabase-token-verifier.ts:188-193 | in every run, a call that finds no install or one ten minutes old waits for the fetch in flight or for a new one sent now |
| `KeyCache.WaitersAreWoken` | apps/api/src/auth/supabase-token-verifier.ts:209-224 | when a fetch ends, every call that waited for it goes on, or fails with the problem of the fetch, and no other call is touched |
| `KeyCache.WaitingNeedsAFetch` | apps/api/src/auth/supabase-token-verifier.ts:209-224 | no call waits while nothing is in flight |
| `KeyCache.RefusalIsJustified` | apps/api/src/auth/supabase-token-verifier.ts:195-202 | a call that looked twice is answered with the key of the newest install, or refused because that has none and new keys came since its first look or a forced fetch had been sent less than ten seconds before |
| `KeyCache.OnlyRefusals` | apps/api/src/auth/supabase-token-verifier.ts:195-291 | apart from that, only a fetched document that is no object ends a call as not authenticated |
| `Host.Machine.Execute` | scripts/verify_m0_runtime.py:264-371 | a command finds the current state, may end in any way and do anything its footprint allows |
| `Ownership.ProbesInNamespace` | scripts/verify_m0_runtime.py:647-660 | every probe container name contains the project name the preflight lists by |
| `Ownership.SuffixInNamespace` | scripts/verify_m0_runtime.py:647-650 | every container name of the Supabase project is found by the preflight name filter |
| `Ownership.FoundIsOutOfScope` | scripts/verify_m0_runtime.py:780-821 | after a passed preflight no container that was there is within reach of a command the run may give |
| `Ownership.CommandBounded` | scripts/verify_m0_runtime.py:866-1076 | however such a command ends, everything found on the machine is still there and everything new is something the run answers for |
| `Ownership.FoundVolumesSurvive` | scripts/verify_m0_runtime.py:780-821 | of the volumes that were found a run can lose those of its own two projects, which no check of the preflight looks at, and no others |
| `GateRuns.PassingRunTakesFoundVolumes` | scripts/verify_m0_runtime.py:1045-1053 | the converse, at a full run: whatever volumes are found on an otherwise bare machine, there is a run that passes every check and ends normally, after which exactly those of its two projects are gone |
| `Ownership.NothingNamedIsRestored` | scripts/verify_m0_runtime.py:1078-1105 | with an empty failure list and both projects removed the machine holds exactly the containers and images it was found with, no directory, and all found volumes but those of the run's own projects |
| `GateLog.ReadOnlyKeeps` | scripts/verify_m0_runtime.py:823-864 | a listing or a check leaves the machine as it is, however it ends |
| `RuntimeGate.Gate.constructor` | scripts/verify_m0_runtime.py:631-666 | a new gate has attempted nothing |
| `RuntimeGate.Gate.Run` | scripts/verify_m0_runtime.py:668-690 | a command given within what the run answers for keeps the machine accounted for and leaves its event in the log |
| `RuntimeGate.Gate.Perform` | scripts/verify_m0_runtime.py:668-690 | no exception exactly when the command completed with an acceptable output |
| `RuntimeGate.Gate.SelectLocalDockerContext` | scripts/verify_m0_runtime.py:718-751 | the context is asked for unless one was requested, then inspected, and nothing changes |
| `RuntimeGate.Gate.AssertNamespacesUnused` | scripts/verify_m0_runtime.py:780-821 | success means that no container carries the project label or name and no image the run's tags |
| `RuntimeGate.Gate.Preflight` | scripts/verify_m0_runtime.py:823-864 | the preflight never changes the machine; success means that every check was made and passed and the namespaces are vacant |
| `RuntimeGate.Gate.PrepareSupabaseWorkdir` | scripts/verify_m0_runtime.py:866-888 | success means a directory configured for the run's own project; on any failure a directory that was made is remembered |
| `RuntimeGate.Gate.VerifyRedis` | scripts/verify_m0_runtime.py:902-916 | the Compose project is answered for before it is started, whatever becomes of the start |
| `RuntimeGate.Gate.VerifySupabase` | scripts/verify_m0_runtime.py:918-937 | the Supabase project is answered for before it is started, and its commands run with the directory in place |
| `RuntimeGate.Gate.BuildImage` | scripts/verify_m0_runtime.py:939-961 | an image tag is answered for before its build |
| `RuntimeGate.Gate.ProbeImage` | scripts/verify_m0_runtime.py:974-1004 | a probe container is answered for before it is run |
| `RuntimeGate.Gate.VerifyImages` | scripts/verify_m0_runtime.py:939-1004 | success means three builds, three user checks and two probes, each one passing, in that order |
| `RuntimeGate.Gate.CleanProbe` | scripts/verify_m0_runtime.py:1008-1030 | the container is looked for, and afterwards gone or named; failed, timed-out and interrupted commands are caught and named, and only an exception that the handlers do not name escapes |
| `RuntimeGate.Gate.CleanProbes` | scripts/verify_m0_runtime.py:1008-1030 | every attempted probe container is looked for and gone or named, unless such an exception is in the log |
| `RuntimeGate.Gate.CleanSupabase` | scripts/verify_m0_runtime.py:1031-1044 | the Supabase project is gone or named; its stop runs while the directory is there, and without one the project is named; failed, timed-out and interrupted stops are caught |
| `RuntimeGate.Gate.CleanCompose` | scripts/verify_m0_runtime.py:1045-1053 | the Compose project is gone or named; failed, timed-out and interrupted removals are caught |
| `RuntimeGate.Gate.CleanServices` | scripts/verify_m0_runtime.py:1008-1053 | probe containers and both projects one after the other: each is tried, whatever became of the ones before it |
| `RuntimeGate.Gate.CleanImage` | scripts/verify_m0_runtime.py:1054-1069 | afterwards the image tag is gone or named; failed, timed-out and interrupted commands are caught and named |
| `RuntimeGate.Gate.CleanImages` | scripts/verify_m0_runtime.py:1054-1069 | every attempted image tag is looked for and gone or named, unless an uncaught exception is in the log |
| `RuntimeGate.Gate.CleanDirectory` | scripts/verify_m0_runtime.py:1070-1075 | the directory is gone or named; only OSError is caught here, so an interrupt of the removal escapes too |
| `RuntimeGate.Gate.Cleanup` | scripts/verify_m0_runtime.py:1006-1076 | an exception escapes exactly when the log of the cleanup shows a command that crashed or an interrupted removal of the directory, which then is its last event; otherwise every step is tried and everything the run may have created is gone or named; each name in the list has a caught failure behind it, and the list is empty exactly when every cleanup command completed |
| `RuntimeGate.Gate.Prove` | scripts/verify_m0_runtime.py:1085-1096 | no exception exactly when every command of the proof was performed and passed |
| `RuntimeGate.Gate.RunLocked` | scripts/verify_m0_runtime.py:1078-1105 | for every sequence of command outcomes: before the preflight passes nothing changes, and a run for the preflight only starts nothing at all; at every command and at the end nothing found is missing, volumes of the run's own projects apart, Supabase commands have their directory and images go after the probe containers; unless the log of the cleanup shows one of the uncaught exceptions, everything created is attended to and gone or named, whatever failed, timed out or was interrupted; the run ends normally exactly when the preflight and the proof were performed and passed and every cleanup command completed, and then the machine is restored |
| `GateRuns.InterruptedRemovalLeavesTheDirectory` | scripts/verify_m0_runtime.py:1070-1075 | that condition is needed: a full run in which the removal of the directory is interrupted leaves it behind unnamed |
| `GateLog.RunEnds` | scripts/verify_m0_runtime.py:1098-1105 | the first exception is raised again over cleanup failures, and a normal end needs neither |
| `GateLog.WholeRunWrittenOut` | scripts/verify_m0_runtime.py:823-1004 | the commands of a passing run, one by one and with the names of its projects, images, users and probes |
| `GateLog.PassesMeans` | scripts/verify_m0_runtime.py:718-937 | what each check must have printed to pass: nothing for the listings, `2.109.1` for the Supabase version, a positive number for the UID, 200 for the health, the expected user for an image |
| `Receipts.ChangedTargetsAreOnDisk` | scripts/promote_release.py:439-446 | write-ahead: at every point where the process may die the receipt on disk names every target that a provider was ever asked to change, and for a Railway one the very settings that were read from the provider before that change |
| `Receipts.SettingsAreReadFirst` | scripts/promote_release.py:440-446 | the settings on disk when a Railway target is first changed were read from the provider before that |
| `Receipts.ChangesAreGated` | scripts/promote_release.py:412-446 | no provider is asked to set variables or to deploy unless release verification, the source checks and the preflight of every target succeeded before |
| `Receipts.ExecutedMeansComplete` | scripts/promote_release.py:439-460 | once the receipt on disk says `executed`, every target was accepted under the recorded id and every Railway target had a poll showing success with no earlier one showing a terminal failure |
| `Receipts.AtMostOneInDoubt` | scripts/promote_release.py:438-460 | at every crash point the results on disk are a prefix of the plan in order, and all but the last are a success (Railway) or submitted (Vercel) |
| `Receipts.DiskIsSound` | scripts/promote_release.py:429-460 | at every crash point the receipt on disk is backed by what had happened by then |
| `Receipts.DiskKeeps` | scripts/promote_release.py:429-460 | between any two points where the process may die the results on disk only continue: none is taken back, each keeps its target, its settings and its id once it has one, and a final or failed one stays as it is |
| `Receipts.NothingAnnouncedNothingChanged` | scripts/promote_release.py:429-446 | while the receipt on disk has no result, no provider was asked to set variables or to deploy |
| `Receipts.RollbacksWork` | scripts/promote_release.py:226-265 | before any such request the rollback of every Railway target was listed as a success, and that of every Vercel target inspected as ready and then listed under the same address; no target is of another provider |
| `Receipts.PollMeans` | scripts/promote_release.py:377-390 | a poll shows the state of the first deployment listed under the id |
| `Receipts.EndMeans` | scripts/promote_release.py:386-388 | a poll ends the waiting in failure for FAILED, CRASHED, REMOVED, CANCELED and SKIPPED, and for no other state |
| `Receipts.DiskIsLastWrite` | scripts/promote_release.py:429-460 | the receipt on disk is the last one whose write succeeded |
| `Promotion.Promoter.constructor` | scripts/promote_release.py:395-404 | a new promotion has asked for nothing |
| `Promotion.Promoter.Ask` | scripts/promote_release.py:84-105 | every request keeps to the protocol: changes only behind the gate and the announcement, receipts only when sound |
| `Promotion.Promoter.Save` | scripts/promote_release.py:444-444 | the receipt is written as it stands, or the one on disk stays |
| `Promotion.Promoter.RailwayDeployments` | scripts/promote_release.py:215-223 | the inventory of a well-formed target, as the provider gave it |
| `Promotion.Promoter.Preflight` | scripts/promote_release.py:226-265 | success means the rollback deployment was seen working, for Railway and for Vercel; refusal needs a reply that did not show it or a target that is not handled |
| `Promotion.Promoter.PreflightVercel` | scripts/promote_release.py:234-263 | success means the rollback was inspected as ready and listed as ready under the same address |
| `Promotion.Promoter.PreviousReleaseEnvironment` | scripts/promote_release.py:280-303 | the settings returned are the ones the provider last listed |
| `Promotion.Promoter.Deploy` | scripts/promote_release.py:306-374 | success means that the provider accepted the target last and under this id; for Railway the settings were in place directly before |
| `Promotion.Promoter.WaitForRailway` | scripts/promote_release.py:377-392 | the polling ends; success means a poll showed success and none before it a terminal failure, and giving up takes the full thirty minutes without either; every poll but the last is answered within them and at least five seconds before the next |
| `Promotion.Promoter.Submit` | scripts/promote_release.py:445-451 | success leaves the last result with its final good status, and no other result is touched; every acceptance in between is under the id recorded |
| `Promotion.Promoter.Announce` | scripts/promote_release.py:439-444 | the target is on disk as started, a Railway one with the settings just read, before anything is asked to change |
| `Promotion.Promoter.Attempt` | scripts/promote_release.py:445-458 | whatever happens the outcome is written: a final result on success, a failed one on a caught failure, each under the id that the provider accepted the target with |
| `Promotion.Promoter.PromoteTarget` | scripts/promote_release.py:439-458 | success adds one final result and has it on disk; a caught failure is recorded and on disk, under the id a rejected answer named or, for any other failure, every acceptance of the target in this round; giving up means that thirty minutes have passed since the provider accepted the target, without a poll that ended it |
| `Promotion.Promoter.RecordFailure` | scripts/promote_release.py:452-456 | the last result becomes a failed one; the settings stay, and so does the id unless a malformed answer gave one |
| `Promotion.Promoter.PromoteTargets` | scripts/promote_release.py:438-458 | every target in order, or the first failure, which is on disk unless it came from the disk or was not caught |
| `Promotion.Promoter.Admit` | scripts/promote_release.py:412-428 | success, rehearsal or not, means that the release was verified with the migration head and the sha of the plan and every rollback was seen working; with `execute` the whole gate was passed; the disk is not touched |
| `Promotion.Promoter.Promote` | scripts/promote_release.py:395-460 | every run keeps to the protocol; every normal end means a verified release and rollbacks seen working; a rehearsal changes nothing; a normal end with `execute` leaves a complete, executed receipt on disk; it fails only after a reply that was not as needed, a full thirty-minute wait after some target was accepted, or for a plan that does not fit the release |
| `BundleScan.Contains` | scripts/check_web_bundle_secrets.py:34-43 | for every nonempty needle and every split into nonempty chunks the result is true exactly when the needle occurs in the concatenation; the empty needle is found exactly in a nonempty file |
| `BundleScan.CarryOverSuffices` | scripts/check_web_bundle_secrets.py:35-42 | carrying over one byte less than the needle loses no occurrence, and invents none, even when chunks are shorter than that |
| `BundleScan.FindCanaryLeaks` | scripts/check_web_bundle_secrets.py:46-56 | refused exactly when there are no canaries or a short one; otherwise every leak in order and nothing else |
| `BundleScan.LeakIsReported` | scripts/check_web_bundle_secrets.py:46-56 | a leak is in the result exactly when that canary occurs in that file |
| `BundleScan.LeaksInOrder` | scripts/check_web_bundle_secrets.py:51-56 | the leaks come file by file: those of files put together are those of the first followed by those of the others |
| `BundleScan.LeaksOfFileInOrder` | scripts/check_web_bundle_secrets.py:51-56 | and within a file canary by canary |
| `BundleScan.LeakOfOne` | scripts/check_web_bundle_secrets.py:51-56 | for one file and one canary the list is that leak or empty, by whether the canary occurs |
| `Redaction.RedactServiceLog` | scripts/verify_p2_e2e.py:398-400 | the loop computes the passes one after the other in the given order |
| `Redaction.RedactionLeavesNothing` | scripts/verify_p2_e2e.py:398-400 | no value that cannot meet the mark occurs in the text after the loop, however the values overlap or nest and in whatever order they come |
| `Redaction.PlainValuesAreGone` | scripts/verify_p2_e2e.py:386-400 | in particular no value of at least eight characters without brackets other than the word REDACTED occurs afterwards |
| `Redaction.NothingNew` | scripts/verify_p2_e2e.py:398-400 | a pass for one value creates no occurrence of another |
| `Redaction.NothingLeft` | scripts/verify_p2_e2e.py:398-400 | a pass for a value leaves none of its occurrences |
| `Redaction.PassKeepsTheRest` | scripts/verify_p2_e2e.py:398-400 | a pass changes occurrences of its value only: the text falls into pieces around them that stay as they are, with `[REDACTED]` in place of the value |
| `Redaction.NothingToRedact` | scripts/verify_p2_e2e.py:398-400 | a log without any of the values comes out as it went in |
| `Redaction.MeetingTheMarkSurvives` | scripts/verify_p2_e2e.py:386-400 | the condition is exact: for every value that can meet the mark there are a log without it and values with which it is in the text afterwards |
| `Redaction.ShorterFirstLeavesTheRest` | scripts/verify_p2_e2e.py:399-399 | a pass for a prefix would leave the rest of a longer value in the clear, where the longer one going first leaves the mark alone |
| `Payloads.NormalizedPayload` | scripts/acquire_comelec_turnout.py:145-187 | an error exactly for a malformed or impossible observation, otherwise the lines of all observations in sorted order |
| `Payloads.NormalizedForgetsOrder` | scripts/acquire_comelec_turnout.py:145-187 | the normalized payload is unchanged by any reordering of the observations |
| `Payloads.NormalizedDetermines` | scripts/acquire_comelec_turnout.py:145-187 | without line breaks in dates the payload determines the multiset of year, date, registered and voted, even when dates contain the separator |
| `Payloads.LineInjective` | scripts/acquire_comelec_turnout.py:161-173 | different entries make different lines |
| `Payloads.NormalizedText` | scripts/acquire_comelec_turnout.py:157-187 | the payload, written out: elections by date and then by key as texts, each with the line of those who did not vote and then the line of those who did, every field in its place |
| `Payloads.TurnoutAddsUp` | scripts/acquire_comelec_turnout.py:157-173 | each election's two lines can be read back from the payload, and the votes they show, read as numbers, add up to the registered voters that both show |
| `Payloads.SourceBundlePayload` | scripts/acquire_comelec_turnout.py:129-142 | an error exactly for an artifact without key or digest, otherwise the artifact lines in sorted order |
| `Payloads.SourceBundleForgetsOrder` | scripts/acquire_comelec_turnout.py:129-142 | the source bundle payload is unchanged by any reordering of the artifacts |
| `Payloads.SourceBundleDetermines` | scripts/acquire_comelec_turnout.py:129-142 | with keys on one line and digests without the separator the payload determines the multiset of artifacts |
| `Confusions.BreakInKeyConfuses` | scripts/acquire_comelec_turnout.py:129-142 | keys on one line are needed: two bundles of two artifacts with hexadecimal digests and different keys, one key with a line break, have the same payload |
| `Confusions.BreakInDateConfuses` | scripts/acquire_comelec_turnout.py:145-187 | dates on one line are needed: three valid observations of one year, dates with line breaks, have the payload of a single one |
| `Ordering.OrderedIsUnique` | scripts/acquire_comelec_turnout.py:142-142 | a sequence of tuples in order is determined by its elements |
| `Ordering.SortOrders` | scripts/acquire_comelec_turnout.py:186-186 | sorting puts tuples of strings in order, compared component by component and by code point |
| `Ordering.StringLeqMeans` | scripts/acquire_comelec_turnout.py:186-186 | a string comes before another exactly if it is its beginning or has the smaller code point at the first difference |
| `Ordering.RowDecided` | scripts/acquire_comelec_turnout.py:186-186 | of two tuples the first component that differs decides |

## Left out

- The wording of change messages: a change is a location and a kind.
- How often and in what order the report lists a change, and which of several exceptions comes first: objects are maps,
  so the iteration order of Python dictionaries is not modelled, nor is the order of keys inside the representation of
  enum members. The theorems determine the set of changes, and that comparisons only append.
- NaN, infinities and the rounding of floats: JSON numbers are exact, with a mark that tells ints from floats.
- `pattern`, `format`, content keywords and most keywords the checker never reads are judged by an uninterpreted
  oracle, which sees the value of the keyword and, where JSON Schema says so, the keywords beside it; `$dynamicRef` is
  outside the fragment.
- Python's recursion limit is a budget that counts `_compare_schema` frames only.
- `str()` of a parameter `in` or `name` that is not a string: the raw value stands in for it.
- HTTP, timeouts, JWT verification, claims and the import of public keys: an answer is one of four outcomes and the
  import an arbitrary partial function.
- In the key cache the settling of a fetch and its initiator's `finally` are one step, and the clock does not run
  backwards.
- KeyCache.SupabaseTokenVerifier.Finish: clears the promise in the same step that installs the keys, as above.
- Resources the gate shares with other users of the machine: base images that Docker pulls, the build cache, and
  containers that someone else starts during a run. The lock file and Windows job objects are not part of this model.
- Interrupts in the gate happen at commands and at the handling of the directory, not between two statements.
- Non-ASCII decimal digits in the UID check of the gate; parsing of the Docker endpoint and of the Compose
  configuration, which is an arbitrary verdict.
- Archive extraction, signature and digest checks of the promoter: release verification is one request that succeeds
  with a schema head or fails. Scopes and identifiers of a target are well formed or not.
- Receipt writes are taken to be atomic.
- Collecting the files of a bundle, the label order of canaries and the command line of the scan.
- The selection of sensitive values by key name and the two regular-expression passes after the redaction loop.
- SHA-256: both checksums are modelled up to the hash. `validate_manifest`, the PDF and spreadsheet extraction and the
  published percentages are not part of this model.
- Payloads.NormalizedDetermines: asks for dates on one line. `validate_manifest` refuses repeated years, as in
  `Confusions.BreakInDateConfuses`, but whether manifests with distinct years can be confused is not settled here.
- How a value is written into a request or a reply (`style`, `explode`, `encoding`) and who may call: `security` of the
  whole document, which the checker does not compare, is no part of what makes a call valid. Header names are compared
  as written, and ranges and defaults of statuses are keys like any other.
- Calls.ReplyCompatibility: statuses and media types that the baseline does not know are outside its scope.
- User interface, controllers, generated contracts and database functions.
