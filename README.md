# PortaBase API client: response classification and qualification submission

The PortaBase client (`AtaneNL\PortaBase\Client`, in `src/Client.php`) talks to a
childcare-administration REST API. Most of the class passes requests through Guzzle.
Two parts of it make real decisions, and this project models both in Dafny:

- **Response classification** (`parseResponse`). Every response goes through this.
  Status 200 or 201 returns the JSON-decoded body. Status 400 throws
  `InvalidRequestException`. Status 401 throws `UnauthorizedException`. Every other
  status throws `RemoteException`. Each exception carries the raw body and the
  status code.
- **Qualification submission** (`postQualification`). First the qualification
  type is checked against the six codes `ehbo`, `psp`, `idk`, `rbw`, `vog` and
  `rie`. Type `rie` also needs an `lrkp` number. Then the multipart field list is
  built: five fields that are always sent, followed by optional fields appended
  in a fixed order. That list is posted, and the response goes through
  `parseResponse`.

Files:

- `wrappers.dfy`: module `Wrappers`, holding `Option` (PHP's `null`) and `Result`
  (a return value or a thrown exception).
- `client.dfy`: module `PortaBase`. It holds the qualification types, the error
  taxonomy, `ParseResponse`, `Validate`, and the method `BuildMultipart`. That
  method builds the field list by appending to a sequence one step at a time, as
  the PHP does. Its postcondition ties the result to `Multipart`, a reference
  definition: the fixed field order `FieldOrder`, keeping only the fields whose
  condition (`SentAt`) holds, each with its contents (`ContentsAt`). The lemmas
  about `Multipart` state what a caller can rely on: which fields come first, the
  field order, that no name repeats, when each optional field is present, and
  what each one carries.

The HTTP transport is a `Transport` object. It answers each request body with a
given function `respond` and records every body it is sent in `log`. PHP's
`json_decode` is the function parameter `decode`. When validation fails, the
transport's log is unchanged, so no request is made.

Status 403 reaches the final `else` (src/Client.php:171-172) and is a
`RemoteException`; `ForbiddenIsRemote` states this.

## Model

| member | source | states |
|---|---|---|
| `PortaBase.Code` | src/Client.php:16-21 | each qualification kind's wire code is one of the six codes the client accepts |
| `PortaBase.ParseType` | src/Client.php:107 | a code names a kind exactly when it is in the list `ehbo, psp, idk, rbw, vog, rie`, and the kind found has that code |
| `PortaBase.CodeRoundTrip` | src/Client.php:16-21 | reading a kind's code gives back that kind, and no two kinds share a code |
| `PortaBase.ParseResponse` | src/Client.php:161-174 | success exactly for 200 and 201, carrying the decoded body; every failure carries the raw body and status code; 400 is `InvalidRequest` exactly, 401 is `Unauthorized` exactly, and everything else is `Remote` |
| `PortaBase.ForbiddenIsRemote` | src/Client.php:171-172 | status 403 is a generic remote failure with that body and code |
| `PortaBase.Validate` | src/Client.php:107-112 | a submission is accepted exactly when its type is one of the six codes and type `rie` comes with an `lrkp`; an unknown type fails with `Invalid type` and a `rie` without `lrkp` fails with `Missing parameter lrkp`; a non-`rie` type without `lrkp` is accepted; the accepted kind has the submitted code |
| `PortaBase.BuildMultipart` | src/Client.php:114-147 | the list built by appending fields step by step equals the reference list: `FieldOrder` restricted to the fields that are sent |
| `PortaBase.PrepareQualification` | src/Client.php:107-147 | validation happens before anything is built: an invalid type or a missing `lrkp` gives the matching `InvalidParameter` error; otherwise the result is the reference field list |
| `PortaBase.PostQualification` | src/Client.php:105-154 | an invalid type or a missing `lrkp` returns the matching `InvalidParameter` error and leaves the transport's log unchanged (nothing is posted); otherwise exactly one request, the reference field list, is added to the log and its response is classified by `ParseResponse` |
| `PortaBase.MultipartStartsWithMandatory` | src/Client.php:114-125 | the request always starts with `gastouderId`, `kwalificatieType`, `datumAfgifte`, `verloopDatum`, `bijlage1`, carrying the host id, the type code, the issue date, the expiry date and the attachment |
| `PortaBase.MultipartOrdered` | src/Client.php:114-147 | every field name is a known field, the fields appear in strictly increasing `FieldOrder` position, and no name occurs twice |
| `PortaBase.MultipartOptionalFields` | src/Client.php:127-147 | `lrkpNummer` is present exactly for type `rie`; `datumAkkoordActieplan` exactly when an approval date is given; `actieplan` and `bijlage2` exactly when an action plan is given; `actieplanUitgevoerd` exactly when an action plan is given and marked executed, so never without `actieplan`; `opmerkingen` exactly when comments are given |
| `PortaBase.MultipartOptionalContents` | src/Client.php:127-147 | every optional field carries its input: the lrkp number, the approval date, 1 for both action-plan flags, the action-plan file, the comments |
| `PortaBase.MultipartActionPlanFollowedByFile` | src/Client.php:133-140 | `actieplan` is always immediately followed by `bijlage2` |
| `PortaBase.FieldPresence` | src/Client.php:114-147 | a field of the fixed order is in the request exactly when its condition on the inputs holds |
| `PortaBase.SelectedShape` | src/Client.php:114-147 | for any prefix of the field order, the parts are the sent fields of that prefix, in increasing position, each carrying that field's contents, and every sent field of the prefix is there |

## Left out

- `getHosts`, `getHost`, `getManagers` (src/Client.php:54-86): each makes one GET request and passes the response to `parseResponse`. `ParseResponse` models that logic. The requests themselves and the URL interpolation are transport.
- The constructor (src/Client.php:33-44): it only configures Guzzle's default headers and `http_errors => false`.
- `json_decode` and the `(array)` cast: the parameter `decode` stands for them, and JSON decoding is not modelled.
- The HTTP transport and its `GuzzleException`s: `Transport` answers with a fixed function of the field list. The request URL is fixed, so the URL is not modelled. Connection failures, and transport behaviour that is not a function of the request, are not modelled.
- Opening attachment files (`Utils::tryFopen` and the `CURLFile` getters): a file is an opaque `CurlFile` value. `tryFopen` throws when the file cannot be opened, and that file-system error path is not modelled.
- The multipart/form-data wire encoding: Guzzle performs it, not this code.
- The legacy client `src/AtaneNL/PortaBase/Client.php`: a cURL wrapper whose `getHosts` fails on any status other than 200. It is superseded by `src/Client.php` and is not part of this model.
- `hostId` is a PHP integer that the client forwards without computing on it, so the model uses an unbounded `int` and does not model 64-bit width.
