# Secure ID verification SDK — request/response and error-classification core

This project models the client-side layer of the Sudo Platform secure ID
verification SDK that sits between an application's calls, the GraphQL wire
format of the identity-verification service, and the SDK's typed errors:

- the three enumeration codecs (verification method, ID document type,
  document verification status): total encoders, and decoders that accept
  exactly the known wire strings and raise a `FatalError` naming any other;
- the output transformer that normalises the service's verified-identity
  record (null and omitted both become absent, an epoch-millisecond time of
  0 is still a time, document types are decoded element by element, an
  unknown enumeration anywhere fails the whole decoding);
- the two input transformers (PII request and document request);
- the error classifier, mapping eight `errorType` codes to local error
  kinds and delegating every other code to the shared platform mapper;
- the api client: fetch-policy choice and the sorting of each transport
  outcome into exactly one result (payload or a single error);
- the facade `DefaultSudoSecureIdVerificationClient`: the signed-in check
  first, the per-operation verification-method policy, which writes the
  default into the caller's request object, and the orchestration of
  encoding, api-client call and decoding.

Collaborators are inputs. The session service is an `isSignedIn: bool`
argument to each facade operation. The transport is modelled in two parts:
the requests the api client issues are recorded in `ApiClient.calls`, and
each operation receives what the transport answered as a `TransportOutcome`.
The shared platform mapper `mapGraphQLToClientError` is a function-typed
value that the model never interprets. Errors are a datatype of kinds. The
kinds built from a service message or a fixed text carry that message;
`NotSignedInError`, `UnknownGraphQLError` and `VersionMismatchError` carry
none. Timestamps are `int` epoch milliseconds.

Files: `wrappers.dfy` (Option, Nullable, Result), `types.dfy` (public
types), `graphql_types.dfy` (wire records), `errors.dfy`, one file per
transformer, `api_client.dfy`, `secure_id_verification_client.dfy`.

`VerifyIdentityDocumentInput.verificationMethod` is optional in the model,
although the public interface declares it required: the client tests it for
absence and fills in the default
(src/public/secureIdVerificationClient.ts:319 and 361).

Where the documented behaviour (public types, unit tests) and the code differ,
the model follows the code:
- `UnknownGraphQLError` is raised without the raw transport failure. At that
  point the code passes the first GraphQL error, which is always undefined
  there (src/private/client/apiClient.ts:61, and likewise at lines 92, 124
  and 156).
- `verificationLastAttemptedAt` is never set by the output transformer. The
  public type and the unit tests expect it to be set.
- The classifier has no case for `RequiredIdentityInformationNotProvidedError`,
  although its unit test lists one.

## Model

| member | source | states |
|---|---|---|
| VerificationMethodTransformer.ToEntity | src/private/transformers/verificationMethodTransformer.ts:5-18 | succeeds exactly on `NONE`, `GOVERNMENT_ID`, `KNOWLEDGE_OF_PII`; the decoded method's own string is the input; any other string fails with `FatalError("Unrecognized verification method '<s>' received from service")` |
| VerificationMethodTransformer.ToGraphQL | src/private/transformers/verificationMethodTransformer.ts:20-22 | total; returns an accepted wire string that decodes back to the same method (round trip) |
| VerificationMethodTransformer.DecodeEncode | src/private/transformers/verificationMethodTransformer.ts:5-22 | converse round trip: encoding a successful decode gives back the input string |
| VerificationMethodTransformer.ToEntityInjective | src/private/transformers/verificationMethodTransformer.ts:6-12 | two accepted strings that decode to the same method are equal |
| VerificationMethodTransformer.ToGraphQLInjective | src/private/transformers/verificationMethodTransformer.ts:20-22 | two methods with the same wire string are the same method |
| VerificationMethodTransformer.UnrecognizedMessageNamesValue | src/private/transformers/verificationMethodTransformer.ts:13-16 | the failure message holds the rejected string right after the opening quote |
| IdDocumentTypeTransformer.ToEntity | src/private/transformers/idDocumentTypeTransformer.ts:15-35 | succeeds exactly on `driverLicense`, `passport`, `idCard`; decoded type's string is the input; otherwise `FatalError("Unrecognized document type '<s>' received from service")` |
| IdDocumentTypeTransformer.ToGraphQL | src/private/transformers/idDocumentTypeTransformer.ts:11-13 | total; returns an accepted string that decodes back to the same type |
| IdDocumentTypeTransformer.DecodeEncode | src/private/transformers/idDocumentTypeTransformer.ts:11-35 | encoding a successful decode gives back the input string |
| IdDocumentTypeTransformer.ToEntityInjective | src/private/transformers/idDocumentTypeTransformer.ts:16-28 | the decoder is injective on accepted strings |
| DocumentVerificationStatusTransformer.ToEntity | src/private/transformers/documentVerificationStatusTransformer.ts:15-47 | succeeds exactly on the six status strings; the decoded status's string is the input; otherwise `FatalError` naming the value |
| DocumentVerificationStatusTransformer.ToGraphQL | src/private/transformers/documentVerificationStatusTransformer.ts:11-13 | total; returns an accepted string that decodes back to the same status |
| DocumentVerificationStatusTransformer.DecodeEncode | src/private/transformers/documentVerificationStatusTransformer.ts:11-47 | encoding a successful decode gives back the input string |
| DocumentVerificationStatusTransformer.ToEntityInjective | src/private/transformers/documentVerificationStatusTransformer.ts:16-40 | the decoder is injective on accepted strings |
| VerifiedIdentityTransformer.MapDocumentTypes | src/private/transformers/verifiedIdentityTransformer.ts:37-40 | succeeds iff every element is a known document type; then same length and element i is the type whose string is wire element i (so `[]` maps to `[]`); failures are fatal |
| VerifiedIdentityTransformer.MapDocumentTypesFailsAtFirstUnknown | src/private/transformers/verifiedIdentityTransformer.ts:38-39 | a failed mapping reports the first unknown element: all elements before it are known |
| VerifiedIdentityTransformer.ToEntity | src/private/transformers/verifiedIdentityTransformer.ts:14-46 | succeeds iff method, status, a non-nullish required method and every element of non-nullish document types are known; failure is fatal, and an unknown `verificationMethod` is the error reported first; owner, verified and canAttemptVerificationAgain copied; `verifiedAt`, `idScanUrl`, `requiredVerificationMethod`, `acceptableDocumentTypes` absent iff the wire value is null or omitted, otherwise exactly the value (epoch 0 included) or its decoding; method and status decoded; last-attempt time always absent |
| VerifiedIdentityTransformer.MapDocumentTypesRoundTrip | src/private/transformers/verifiedIdentityTransformer.ts:37-40 | mapping the strings of any list of document types gives back that list |
| VerifiedIdentityTransformer.RoundTrip | src/private/transformers/verifiedIdentityTransformer.ts:14-46 | every local record without a last-attempt time is what the decoder makes of its own wire record |
| VerifiedIdentityTransformer.DecodeKeepsNormalisedRecord | src/private/transformers/verifiedIdentityTransformer.ts:17-45 | a decoded record re-encodes to the wire record with nulls turned into omissions and the last-attempt time dropped: nothing else is lost |
| VerifiedIdentityTransformer.DecodeInjectiveUpToNormalisation | src/private/transformers/verifiedIdentityTransformer.ts:17-45 | two wire records decoding to the same entity differ only in null-versus-omitted and the last-attempt time |
| VerifyIdentityInputTransformer.ToGraphQL | src/private/transformers/verifyIdentityInputTransformer.ts:6-23 | total; method present iff given and then it decodes back to the given method; names, address, postal code, country and birth date copied; optional city and state passed through |
| VerifyIdentityInputTransformer.ToGraphQLInjective | src/private/transformers/verifyIdentityInputTransformer.ts:9-22 | distinct requests give distinct mutation variables |
| VerifyIdentityDocumentInputTransformer.ToGraphQL | src/private/transformers/verifyIdentityDocumentInputTransformer.ts:13-26 | total; method encoded by its codec (absent stays absent); document type encoded and decodes back; images and country copied unvalidated; optional face image passed through |
| VerifyIdentityDocumentInputTransformer.ToGraphQLInjective | src/private/transformers/verifyIdentityDocumentInputTransformer.ts:16-25 | distinct requests give distinct mutation variables |
| ErrorTransformer.ToClientError | src/private/transformers/errorTransformer.ts:23-44 | a local code yields the kind whose reverse-table code it is, carrying the wire message (the version mismatch carries none); any other or missing code yields the shared mapper's result; never fails |
| ErrorTransformer.LocalKindRoundTrip | src/private/transformers/errorTransformer.ts:24-40 | every locally classified kind is produced from its own code and message |
| ErrorTransformer.LocalKindsDistinct | src/private/transformers/errorTransformer.ts:24-40 | the eight local codes give pairwise distinct kinds |
| ErrorTransformer.LocalTestRows | test/unit/private/transformers/errorTransformer.test.ts:33-52 | the table rows that do not rest on the shared mapper (all but lines 35-38) hold for every message |
| ApiClient.QueryFetchPolicy | src/private/client/apiClient.ts:53 | a query's policy is `cache-only` exactly when the caller asked for the cache and `network-only` otherwise, never the mutations' `no-cache` |
| ApiClient.Dispatch | src/private/client/apiClient.ts:55-74 | payload iff the call returned with no errors and a payload, and then it is that payload unchanged; a throw is the classification of its first GraphQL error or `UnknownGraphQLError`; a response with errors is the classification of its first; no payload is `FatalError` with the operation's message |
| ApiClient.OnlyFirstErrorCounts | src/private/client/apiClient.ts:55-68 | only the first error is classified, before and regardless of the payload, and a thrown error is classified as a reported one |
| ApiClient.PayloadOnlyWithoutErrors | src/private/client/apiClient.ts:65-74 | a payload result comes only from a response with no errors that carries that payload |
| ApiClient.ApiClient.Settle | src/private/client/apiClient.ts:48-74 | the shared try/catch-and-check sequence returns exactly the `Dispatch` decision |
| ApiClient.ApiClient.GetCapabilities | src/private/client/apiClient.ts:45-75 | issues one query recording the option it was handed and the fetch policy derived from it; result as `Dispatch` with "isFaceImageRequired did not return any result" |
| ApiClient.ApiClient.CheckIdentityVerification | src/private/client/apiClient.ts:77-106 | issues one query recording the option it was handed and the fetch policy derived from it; result as `Dispatch` with "unable to retrieve identity verification status" |
| ApiClient.ApiClient.VerifyIdentity | src/private/client/apiClient.ts:108-138 | issues one `no-cache` mutation with the given variables; result as `Dispatch` with "unable to verify identity" |
| ApiClient.ApiClient.VerifyIdentityDocument | src/private/client/apiClient.ts:140-170 | issues one `no-cache` mutation with the given variables; result as `Dispatch` with "unable to verify identity" |
| ApiClient.ApiClient.CaptureAndVerifyIdentityDocument | src/public/secureIdVerificationClient.ts:373-374 | records the call with its variables and returns the abstract answer |
| ApiClient.ApiClient.Reset | src/private/client/apiClient.ts:172-174 | appends one store clear and nothing else |
| SecureIdVerificationClient.CheckVerificationMethod | src/public/secureIdVerificationClient.ts:279-286 | accepts iff the method is absent or the supported one, yielding the supported one; otherwise `IllegalArgumentError("<METHOD> is not a supported verification method for <operation>")` |
| SecureIdVerificationClient.DefaultingIsIdempotent | src/public/secureIdVerificationClient.ts:319-326 | giving explicitly the method the policy chose is accepted unchanged |
| SecureIdVerificationClient.VerifyIdentityPolicy | src/public/secureIdVerificationClient.ts:282-286 | `verifyIdentity` accepts only knowledge of PII; `GOVERNMENT_ID` and `NONE` are rejected with the message naming them and `verifyIdentity` |
| SecureIdVerificationClient.VerifyIdentityDocumentPolicy | src/public/secureIdVerificationClient.ts:322-326 | the document operations accept only government ID; `KNOWLEDGE_OF_PII` is rejected naming `verifyIdentityDocument` |
| SecureIdVerificationClient.VerificationResult | src/public/secureIdVerificationClient.ts:290-292 | succeeds exactly when the api client delivered a record whose enumerations are all known; an api-client error passes through unchanged; any other failure is fatal |
| SecureIdVerificationClient.VerificationResultKeepsRecord | src/public/secureIdVerificationClient.ts:290-292 | a successful verification returns the delivered record, losing only null-versus-omitted and the last-attempt time |
| SecureIdVerificationClient.CheckIdentityVerificationScenario | test/unit/secureIdVerificationClient.spec.ts:163-185 | the unit test's response decodes to verified false, method None, `verifiedAt` = epoch 0, required method knowledge of PII, empty document types, status not required; the last-attempt time is absent, as the code computes it |
| SecureIdVerificationClient.DefaultSudoSecureIdVerificationClient.Reset | src/public/secureIdVerificationClient.ts:187-189 | only delegates to the api client's store clear |
| SecureIdVerificationClient.DefaultSudoSecureIdVerificationClient.ListSupportedCountries | src/public/secureIdVerificationClient.ts:202-210 | not signed in: `NotSignedInError` and no call; otherwise one capabilities query carrying the caller's option unchanged (absent stays absent), returning `supportedCountries` or the api-client error |
| SecureIdVerificationClient.DefaultSudoSecureIdVerificationClient.IsFaceImageRequired | src/public/secureIdVerificationClient.ts:223-233 | not signed in: `NotSignedInError` and no call; otherwise one capabilities query carrying the caller's option unchanged (absent stays absent), returning `faceImageRequiredWithDocument` or the api-client error |
| SecureIdVerificationClient.DefaultSudoSecureIdVerificationClient.CheckIdentityVerification | src/public/secureIdVerificationClient.ts:245-256 | not signed in: `NotSignedInError` and no call; otherwise one status query carrying the caller's option unchanged (absent stays absent), result decoded |
| SecureIdVerificationClient.DefaultSudoSecureIdVerificationClient.VerifyIdentity | src/public/secureIdVerificationClient.ts:273-293 | sign-in check first, leaving the request and the api client untouched; then the default knowledge of PII is written into the caller's request; a rejected method returns the policy's error with no api-client call; otherwise exactly one `no-cache` mutation carrying the encoding of the updated request, result decoded |
| SecureIdVerificationClient.DefaultSudoSecureIdVerificationClient.VerifyIdentityDocument | src/public/secureIdVerificationClient.ts:310-334 | as `VerifyIdentity` with government ID as default and only accepted method |
| SecureIdVerificationClient.DefaultSudoSecureIdVerificationClient.CaptureAndVerifyIdentityDocument | src/public/secureIdVerificationClient.ts:352-377 | the same gate, default, policy and message as `VerifyIdentityDocument`; on acceptance one abstract api-client call with the encoded request, answer decoded |

## Left out

- Transport, caching and retries (the AppSync/Apollo client): represented by the call log `ApiClient.calls` and an abstract outcome per call. What a `cache-only` query returns is the transport's business.
- Session service: `isSignedIn` is an argument; the asynchronous call to it is not modelled.
- `mapGraphQLToClientError` from the shared platform library: its body is not part of this model. It is a parameter, so the test rows for `sudoplatform.InvalidArgumentError` and `sudoplatform.ServiceError` are not proved.
- GraphQL errors keep only their code (null and missing merged) and message; locations, path and extensions are dropped, so the shared mapper is modelled as seeing only those two fields.
- Configuration and construction (`getIdentityVerificationServiceConfig`, `ConfigurationSetNotFoundError`, default api-client manager, logger): plumbing with no decisions beyond "present or not".
- `IdDocument.buildDocumentVerificationRequest` (src/public/idDocument.ts): reads image files and base64-encodes them, which is I/O. It always sets government ID and never sets a face image.
- Logging, promises and `async`, stack traces and error `name` fields: no logical content; errors are kinds with their message.
- Default messages of `NotSignedInError`, `UnknownGraphQLError` and `VersionMismatchError`: these are set inside the shared platform library, which is not part of this model, so the three kinds carry no message.
- `new Date(ms)`: a timestamp is the epoch-millisecond integer itself; JavaScript's invalid-date range and fractional milliseconds are not modelled.
- A response whose GraphQL error list is missing is modelled as one with an empty list; both take the same branch (`?.[0]` is undefined).
- ApiClient.ApiClient.CaptureAndVerifyIdentityDocument: apiClient.ts does not define this operation, so its request and answer are abstract and no dispatch is claimed for it.
- The api client's payload check is a truthiness test; payloads are records, so present and truthy coincide and the model tests presence.
