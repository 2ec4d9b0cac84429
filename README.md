# Kitchensink member registry — a Dafny model of its decision procedures

Kitchensink is a Spring Boot REST service that keeps a registry of members (name, email, phone
number) in MongoDB. Every protected endpoint is guarded by two aspects:

- an **authorization** step takes the bearer token from the `Authorization` header and asks an external
  auth service whether it grants the roles the endpoint declares. It stores the returned user id in a
  per-request `UserContext`;
- a **rate-limit** step, only on endpoints marked for it, reports the request to an external
  rate-limit service under that user id and then clears the context.

Exceptions that reach the controller boundary go through an exception handler. It maps each
exception to a status, a stable message and, for 429 (RFC 6585 section 4), the upstream `retry-after`
hint described in section 10.2.3 of RFC 9110. Member ids come from a counter document that is
incremented with upsert. The member service registers, partially updates and deletes members, and the
controller decides the response to a create request.

This project models those procedures in Dafny and proves what each one promises. The modules are:

| module | file | models |
|---|---|---|
| `Wrappers` | wrappers.dfy | `Option`, `Result`, `Outcome` (success or a thrown exception) |
| `Http` | http.dfy | statuses, outbound calls (`Exchange`), responses, the exception kinds |
| `Members` | members.dfy | `Member`, `MemberUpdateDto`, the auth payloads, role names, the id sequence name |
| `Operations` | operations.dfy | the five endpoints, their roles and which one is rate limited |
| `Helper` | user_context.dfy | `UserContext`, the one-slot identity of a request |
| `Authorization` | authorization_aspect.dfy | token extraction and the authorize step |
| `RateLimiting` | rate_limiting_aspect.dfy | the rate-limit URL and the rate-limit step |
| `ExceptionHandling` | exception_handler.dfy | the status-message table, extraction, 429 hint, duplicate-key 409 |
| `MapBodyExceptionHandling` | map_body_exception_handler.dfy | the `kitchensink/` handler: field-error map, `{"error": …}` body |
| `Sequences` | sequence_generator.dfy | increment-and-fetch with upsert over a name→counter map |
| `Repository` | member_repository.dfy | the id→member map, with the unique email index |
| `Service` | member_service.dfy | register, partial update with the email-conflict rule, delete |
| `Controller` | member_controller.dfy | lookup, validate, create, update and delete responses, and the gate in front of them |

The objects that the source updates in place are classes with `modifies` clauses:

- the two aspects, which append every outbound call to an `exchanges` log, so that "no call" and
  "exactly one call with this payload" can be stated;
- the request's `UserContext`;
- the counter store, the member repository, the service and the controller.

The pure decision logic is written as functions, with lemmas about them.

The two external services and the bean validator are total function parameters (oracles). The
auth service returns a response body or an exception. The rate-limit service returns success or an
exception. The validator returns a set of (property path, message) violations for a member.

Behaviours of the code worth noting, which the model follows:

- Every error from the rate-limit call propagates unchanged. Server-side (5xx) errors are not
  swallowed.
- The rate-limit step's `clear()` is not in a `finally`, so an error leaves the user id in the context.
- Only rate-limited operations clear the context. After any other operation, a successful
  authorization leaves the user id in it.
- A 429 makes the handler crash in three cases. A failure that is not a client error fails the cast
  (`ClassCastException`). A missing `retry-after` key makes `.get(0)` run on `null`
  (`NullPointerException`). An empty value list is an index failure. Here all three are excluded by a
  precondition of the handler.
- Authorization fails early only when the header is missing or lacks the exact prefix. Everything
  else, including an invalid token, is decided by the auth service's answer.
- The prefix `"Bearer "` is matched case-sensitively, although section 2.1 of RFC 6750 treats the
  scheme name as case-insensitive.
- The counter store always returns the new document, as MongoDB's find-and-modify does with upsert
  and "return new". So the fallback value 1 of `Sequences.SequenceOrDefault` never fires inside
  `GenerateSequence`. If it did fire for a counter that had already advanced, it would issue 1 again.
- The source does not fix the order of the two aspects. `Controller.Gate` uses authorize-then-rate-limit,
  which is the order in which the rate-limit step can see the user id.

## Model

| member | source | states |
|---|---|---|
| Operations.RequiredRoles | src/main/java/com/mongodbdemo/kitchensink/controller/MemberController.java:47-115 | each endpoint declares exactly one role: READ for list and lookup, WRITE for create and update, DELETE for delete (each as an if-and-only-if); the companion predicate `IsRateLimited` marks only listing all members, the one endpoint with `@RateLimit` (line 48) |
| Authorization.ExtractToken | src/main/java/com/mongodbdemo/kitchensink/aspect/AuthorizationAspect.java:70-78 | a token exists iff the header is present and starts with exactly `"Bearer "`, and then the header is the prefix followed by the token |
| Authorization.ExtractTokenRoundTrip | src/main/java/com/mongodbdemo/kitchensink/aspect/AuthorizationAspect.java:74-75 | for every token `t`, the empty one included, the header `"Bearer " + t` yields `t` |
| Authorization.ExtractTokenRejects | src/main/java/com/mongodbdemo/kitchensink/aspect/AuthorizationAspect.java:73-77 | an absent header, or one not starting with the exact prefix, yields no token |
| Authorization.AuthExchange | src/main/java/com/mongodbdemo/kitchensink/aspect/AuthorizationAspect.java:86-111 | the auth call is a POST to the configured URL with a JSON content type, carrying the token and the operation's roles in declared order |
| Authorization.AuthorizationAspect.ValidateToken | src/main/java/com/mongodbdemo/kitchensink/aspect/AuthorizationAspect.java:86-100 | exactly one auth call is logged; an error is returned unchanged and leaves the context alone; success stores exactly the returned user id |
| Authorization.AuthorizationAspect.Authorize | src/main/java/com/mongodbdemo/kitchensink/aspect/AuthorizationAspect.java:44-50 | without a token: fails with 401, makes no call and leaves the context alone; with one: exactly the call and outcomes of `ValidateToken` |
| RateLimiting.BuildRateLimitUrl | src/main/java/com/mongodbdemo/kitchensink/aspect/RateLimitingAspect.java:63-65 | the URL is the base, then `/`, then the user id (every position accounted for) |
| RateLimiting.BuildRateLimitUrlInjective | src/main/java/com/mongodbdemo/kitchensink/aspect/RateLimitingAspect.java:63-65 | two users get the same URL under one base only if they are the same user |
| RateLimiting.RateLimitExchange | src/main/java/com/mongodbdemo/kitchensink/aspect/RateLimitingAspect.java:72-85 | the rate-limit call is a PUT to the user's URL, without a body and with empty headers |
| RateLimiting.RateLimitingAspect.CallRateLimitService | src/main/java/com/mongodbdemo/kitchensink/aspect/RateLimitingAspect.java:83-85 | logs exactly the given call and returns the service's outcome unchanged |
| RateLimiting.RateLimitingAspect.RateLimit | src/main/java/com/mongodbdemo/kitchensink/aspect/RateLimitingAspect.java:47-55 | empty slot: no call and a normal return; a user id: exactly one call for that id, whose error propagates with the slot kept; every normal return leaves the slot empty |
| ExceptionHandling.GetStatusMessage | src/main/java/com/mongodbdemo/kitchensink/exceptionhandler/MemberControllerExceptionHandler.java:60-67 | 401, 403 and 429 map to their fixed messages; a message exists iff the status is one of those three, and any other status is an unexpected-status fault |
| ExceptionHandling.StatusMessageDeterminesStatus | src/main/java/com/mongodbdemo/kitchensink/exceptionhandler/MemberControllerExceptionHandler.java:60-67 | the table is injective: equal messages come from equal statuses |
| ExceptionHandling.ExtractStatusCode | src/main/java/com/mongodbdemo/kitchensink/exceptionhandler/MemberControllerExceptionHandler.java:42-49 | the carried status for client-error and response-status failures; a status exists iff the kind carries one; other kinds are unsupported |
| ExceptionHandling.ExtractMessage | src/main/java/com/mongodbdemo/kitchensink/exceptionhandler/MemberControllerExceptionHandler.java:51-58 | client error: the table message; response status: the reason if present, else the exception's message; other kinds: unsupported |
| ExceptionHandling.ExtractionsRejectTheSameKinds | src/main/java/com/mongodbdemo/kitchensink/exceptionhandler/MemberControllerExceptionHandler.java:42-58 | message extraction never accepts a kind that status extraction rejects |
| ExceptionHandling.ResponseHeaders | src/main/java/com/mongodbdemo/kitchensink/exceptionhandler/MemberControllerExceptionHandler.java:28-32 | on 429 exactly the first upstream `retry-after` value is copied; otherwise no header is added |
| ExceptionHandling.HandleHttpExceptions | src/main/java/com/mongodbdemo/kitchensink/exceptionhandler/MemberControllerExceptionHandler.java:23-34 | a response exists iff the kind carries a status and, for a client error, the status is in the table; it has the carried status, the extracted message as `error` and the 429 hint; otherwise the fault that is raised first |
| ExceptionHandling.ThrottledRequestCarriesHint | src/main/java/com/mongodbdemo/kitchensink/exceptionhandler/MemberControllerExceptionHandler.java:28-33 | a throttled client error becomes 429 with the throttling message and the first upstream hint, for every hint list |
| ExceptionHandling.HandleDuplicateKeyException | src/main/java/com/mongodbdemo/kitchensink/exceptionhandler/MemberControllerExceptionHandler.java:36-40 | every duplicate-key failure becomes 409 with the fixed uniqueness message |
| MapBodyExceptionHandling.FieldErrorMapKeys | kitchensink/src/main/java/com/mongodbdemo/kitchensink/exceptionhandler/MemberControllerExceptionHandler.java:23-25 | the keys of the field-error map are exactly the fields in the error list |
| MapBodyExceptionHandling.FieldErrorMapLastWins | kitchensink/src/main/java/com/mongodbdemo/kitchensink/exceptionhandler/MemberControllerExceptionHandler.java:23-25 | a field's value is the message of its last error in list order |
| MapBodyExceptionHandling.HandleValidationException | kitchensink/src/main/java/com/mongodbdemo/kitchensink/exceptionhandler/MemberControllerExceptionHandler.java:21-27 | 400 whose keys are exactly the error fields, each mapped to the message of its last error |
| MapBodyExceptionHandling.HandleHttpExceptions | kitchensink/src/main/java/com/mongodbdemo/kitchensink/exceptionhandler/MemberControllerExceptionHandler.java:29-67 | succeeds and faults exactly as the other handler does, with the same status and 429 hint, and the single-entry body `{"error": message}` |
| Sequences.SequenceOrDefault | src/main/java/com/mongodbdemo/kitchensink/service/SequenceGeneratorService.java:44-46 | the returned document's counter, or 1 when the store yields none |
| Sequences.SequenceGeneratorService.FindAndModify | src/main/java/com/mongodbdemo/kitchensink/service/SequenceGeneratorService.java:34-42 | the named counter is incremented, or created at 1, and no other counter changes; the document returned is the new one |
| Sequences.SequenceGeneratorService.GenerateSequence | src/main/java/com/mongodbdemo/kitchensink/service/SequenceGeneratorService.java:33-47 | returns the old counter plus one, or 1 for a fresh name; the store now holds that value for the name and is otherwise unchanged |
| Sequences.IssueValues | src/main/java/com/mongodbdemo/kitchensink/service/SequenceGeneratorService.java:33-47 | `k` successive allocations for one name return the counter's value plus 1, 2, …, k (1, …, k for a fresh name) |
| Sequences.IssueStrictlyIncreasing | src/main/java/com/mongodbdemo/kitchensink/service/SequenceGeneratorService.java:35-41 | successive allocations for one name are strictly increasing |
| Repository.FindByEmail | kitchensink/src/main/java/com/mongodbdemo/kitchensink/repository/MemberRepository.java:14 | no result iff no stored member holds the email; a result is the stored member holding it |
| Repository.MemberRepository.Save | src/main/java/com/mongodbdemo/kitchensink/model/Member.java:23-27 | fails with a duplicate-key error and stores nothing iff another member holds the email (the unique index); otherwise stores the member under its id; the index is kept |
| Repository.MemberRepository.DeleteById | src/main/java/com/mongodbdemo/kitchensink/service/MemberService.java:61 | removes exactly that id |
| Service.ApplyUpdate | src/main/java/com/mongodbdemo/kitchensink/service/MemberService.java:35-51 | each present field replaces the current one and each absent one is kept; the id never changes |
| Service.ApplyUpdateIdempotent | src/main/java/com/mongodbdemo/kitchensink/service/MemberService.java:35-51 | applying the same update twice gives the same member as applying it once |
| Service.UpdateOutcome | src/main/java/com/mongodbdemo/kitchensink/service/MemberService.java:29-54 | absent id: 404 "Member not found"; a new email held by another member: 409 "Email is already in use by another member"; otherwise the updated member, and the store stays well formed |
| Service.UnchangedEmailNeverConflicts | src/main/java/com/mongodbdemo/kitchensink/service/MemberService.java:35-36 | an absent email, or one equal to the current email, never causes a conflict |
| Service.MemberService.Register | src/main/java/com/mongodbdemo/kitchensink/service/MemberService.java:22-27 | allocates the member-id sequence once, gives the member that id and saves it under it |
| Service.MemberService.UpdateMember | src/main/java/com/mongodbdemo/kitchensink/service/MemberService.java:29-54 | returns `UpdateOutcome`; on success only that member's entry is replaced, and on failure nothing is saved |
| Service.MemberService.DeleteMember | src/main/java/com/mongodbdemo/kitchensink/service/MemberService.java:56-62 | absent id: 404 "Member not found" and nothing deleted; otherwise exactly that id is removed |
| Controller.CreateViolationResponse | src/main/java/com/mongodbdemo/kitchensink/controller/MemberController.java:150-160 | 400 whose keys are exactly the violations' property paths, each mapped to the message of a violation at that path; with distinct paths, each path's own message |
| Controller.RespondToCreateFailure | src/main/java/com/mongodbdemo/kitchensink/controller/MemberController.java:82-91 | constraint violations give the violation response; a validation failure gives 409 `{"email": "Email taken"}`; any other failure gives 400 `{"error": message}` |
| Controller.MemberController.LookupMemberById | src/main/java/com/mongodbdemo/kitchensink/controller/MemberController.java:62-66 | 200 with the stored member, or 404 without a body |
| Controller.MemberController.ValidateMember | src/main/java/com/mongodbdemo/kitchensink/controller/MemberController.java:128-148 | violations fail first; only without them is the email looked up; a store failure of the lookup is passed on; otherwise it fails with "Unique Email Violation" iff a stored member holds the email |
| Controller.MemberController.CreateMember | src/main/java/com/mongodbdemo/kitchensink/controller/MemberController.java:77-92 | violations: 400 with the violation map and nothing registered or allocated; a store failure of the email lookup: 400 `{"error": message}` (or the matching catch clause) and nothing registered; a taken email: 409 and nothing registered; otherwise 200 and the member registered once under the next id |
| Controller.MemberController.UpdateMember | src/main/java/com/mongodbdemo/kitchensink/controller/MemberController.java:103-107 | 200 with the updated member, or the service's not-found or conflict failure with the store unchanged |
| Controller.MemberController.DeleteMember | src/main/java/com/mongodbdemo/kitchensink/controller/MemberController.java:117-120 | 204 without a body once the id is removed, or the not-found failure with nothing removed |
| Controller.Gate | src/main/java/com/mongodbdemo/kitchensink/aspect/AuthorizationAspect.java:43-50 | the authorize advice followed by the rate-limit advice (RateLimitingAspect.java:46-55): authorize then, only for the rate-limited operation, rate-limit: a failed authorization makes no rate-limit call; the final context slot and the logged calls for every case of the token and the two services' answers |

## Left out

- Spring AOP, annotations and reflection are left out. Pointcuts, `MethodSignature`, `getAnnotation`
  and the servlet request are not modelled. The roles are a per-operation table
  (`Operations.RequiredRoles`). The header is a parameter. The gate in front of a call is
  `Controller.Gate`. A caller runs the controller operation only after `Gate` returns `Pass`; no member
  composes the gate with the operation.
- `RestTemplate` calls to the auth and rate-limit services are foreign I/O. They are oracle
  parameters, and the calls are recorded in the aspects' `exchanges` logs.
- The thread-local behaviour of `UserContext` is left out. It is one object per request; concurrency
  is not modelled.
- MongoDB atomicity, concurrent callers of `generateSequence` and the `@Transactional` rollback are
  not modelled. The store is sequential, and an id spent by a failed save stays spent.
- Jakarta Bean Validation is a library. It is an oracle returning a set of violations. The
  `@Valid` check on the update body is outside the model, because it rejects a request before
  `updateMember` runs.
- `listAllMembers` is left out. Its result is a derived repository query (`findAllByOrderByNameAsc`)
  whose ordering is done by the database. The controller adds nothing but a 200, and its gate
  (READ role, rate limited) is modelled.
- Java `long` overflow is not modelled. Ids and counters are unbounded integers.
- HTTP header names are case-insensitive in Spring's `HttpHeaders`. The model uses the exact
  lower-case key `retry-after`.
- A `null` message is not modelled. With one, `Map.of("error", null)` would throw; messages are
  always strings here.
- A missing auth response body is not modelled. It would make `getBody()` fail; the response body
  is always present.
- Spring's dispatch of exceptions to the handler methods is left out. The handlers are separate
  functions to be applied to the failure a controller method returns.
- Logging is left out.
- Controller.MemberController.CreateMember: the only store failure modelled is one of the email
  lookup (the `lookupFault` parameter). Allocating the id and saving cannot fail, except on the
  unique email index, which the lookup has already ruled out. So a `register` that throws for another
  reason, which the source also answers with 400 `{"error": message}`, has no counterpart here.
