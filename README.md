# Learning-path controller: request normalisation and decisions

This project models the decision layer of the learning-path HTTP controller
(`PathController`). That layer covers:

- how `GET /api/paths` turns its query string into the search filters and the
  pagination options it hands to the path service;
- when `POST /api/paths` refuses a body before calling the service;
- which HTTP status each of the seven handlers answers for each error message
  the service raises;
- how service results are projected into response bodies.

Every rule is a small total function, so the model has no classes, loops or
state:

- `EcmaParseInt.dfy` models the global `parseInt(string, 10)` as defined in
  ECMA-262, section 19.2.5. It skips white space and line terminators, reads
  one optional sign, then takes the longest prefix of decimal digits. No digit
  gives NaN, which is `None`. The file proves that parsing the decimal form of
  any integer gives that integer back, even with non-digit text after it.
- `PathController.dfy` models the query normalisation, the filter record, the
  create-body check, the per-handler error mapping and the handlers themselves.
  Each handler is a function from the request and a `PathService` value to the
  response. `PathService` is a record of functions that stands for the service
  whose behaviour is not modelled.
- `Wrappers.dfy` holds the `Option` type.

The controller clamps only the limit, and only from above
(`Math.min(..., 100)`). A negative page or limit reaches the service
unchanged, and only NaN and 0 fall back to the defaults:
`EffectivePage(Some("-5")) == -5` and `EffectiveLimit(Some("-3")) == -3`.

Two constants come from files that are not part of this model:

- The HTTP status names (`HTTP_STATUS.BAD_REQUEST`, …) are taken to have
  their standard codes: 200, 201, 400, 404 and 500.
- `sendSuccessResponse` is taken to answer 200 when it is given no status.

## Model

| member | source | states |
|---|---|---|
| `EcmaParseInt.TrimStart` | backend/src/controllers/path.controller.ts:107-108 | parseInt's first step: removes exactly the leading white space and line terminators. The result is a suffix of the input, every removed character is white space, and the result does not start with white space |
| `EcmaParseInt.SplitSign` | backend/src/controllers/path.controller.ts:107-108 | parseInt's sign step: the number is negative exactly when the text starts with '-'. One leading '+' or '-' is removed, and nothing else |
| `EcmaParseInt.DigitPrefix` | backend/src/controllers/path.controller.ts:107-108 | the longest prefix of decimal digits: it is a prefix, it holds only digits, and the next character (if any) is not a digit |
| `EcmaParseInt.DecimalString` | backend/src/controllers/path.controller.ts:107-108 | reference encoder used to state what parseInt reads: a non-empty string of digits with no leading zero |
| `EcmaParseInt.DecimalValueOfString` | backend/src/controllers/path.controller.ts:107-108 | the digit-string value computed by parseInt inverts the decimal encoder for every natural number |
| `EcmaParseInt.DigitPrefixOfDigits` | backend/src/controllers/path.controller.ts:107-108 | digits followed by empty text or a non-digit: the digit prefix is exactly those digits |
| `EcmaParseInt.TrimStartSkipsWhiteSpace` | backend/src/controllers/path.controller.ts:107-108 | extra leading white space does not change the trimmed text |
| `EcmaParseInt.ParseIntIgnoresLeadingWhiteSpace` | backend/src/controllers/path.controller.ts:107-108 | parseInt gives the same result with or without extra leading white space |
| `EcmaParseInt.ParseIntOfDigits` | backend/src/controllers/path.controller.ts:107-108 | text whose first non-blank characters are an optional sign, digits, then the end or a non-digit parses to the signed value of those digits. This covers "+5", leading zeros and leading white space |
| `EcmaParseInt.DecimalValueLeadingZero` | backend/src/controllers/path.controller.ts:107-108 | a leading zero does not change the value parseInt reads from a digit string, so "007" reads as 7 |
| `EcmaParseInt.ParseIntOfNotation` | backend/src/controllers/path.controller.ts:107-108 | the decimal notation of any integer, negatives included, followed by text that does not continue the digits (as in "12abc"), parses to that integer |
| `EcmaParseInt.ParseIntRoundTrip` | backend/src/controllers/path.controller.ts:107-108 | parseInt inverts the decimal notation of every integer |
| `EcmaParseInt.DecimalValue` | backend/src/controllers/path.controller.ts:107-108 | the value parseInt gives a digit string is 0 exactly when every digit is '0' |
| `EcmaParseInt.ParseSigned` | backend/src/controllers/path.controller.ts:107-108 | parseInt's last steps: NaN exactly when the unsigned text is empty or does not start with a digit. A negative result needs the '-' sign, and a positive one its absence |
| `EcmaParseInt.ParseInt` | backend/src/controllers/path.controller.ts:107-108 | the result is NaN exactly when, after leading white space and one sign, the text does not start with a digit. A negative result comes only from text whose first non-blank character is '-' |
| `PathController.View` | backend/src/controllers/path.controller.ts:119-128 | a path's view copies id, title, description, category, stepCount, steps, createdAt and updatedAt unchanged |
| `PathController.ViewsOf` | backend/src/controllers/path.controller.ts:119-128 | the projected `paths` list has the service list's length, and element i is the view of the service's path i |
| `PathController.ViewsOfAppend` | backend/src/controllers/path.controller.ts:119-128 | projection distributes over concatenation, so the order of the service's list is kept |
| `PathController.ViewHidesDifficulty` | backend/src/controllers/path.controller.ts:293-302 | the projected fields leave out difficulty and nothing else: two paths have the same view if and only if they differ at most in difficulty |
| `PathController.Truthy` | backend/src/controllers/path.controller.ts:95-98 | a query value is kept, unchanged, exactly when it is present and non-empty |
| `PathController.OrDefault` | backend/src/controllers/path.controller.ts:107-108 | the logical-or default applied to a parseInt result: a non-zero number is kept, while NaN and 0 give the fallback |
| `PathController.EffectivePage` | backend/src/controllers/path.controller.ts:107 | the page is never 0. It is the parsed value when that value is a non-zero number, and 1 when parsing gives NaN or 0 |
| `PathController.EffectiveLimit` | backend/src/controllers/path.controller.ts:108 | the limit is never 0 and never above 100. A non-zero parsed value gives min(value, 100), and NaN or 0 gives 10 |
| `PathController.AbsentPageAndLimit` | backend/src/controllers/path.controller.ts:87-88 | absent page and limit parameters default to "1" and "10", which give page 1 and limit 10 |
| `PathController.EffectiveSortBy` | backend/src/controllers/path.controller.ts:89 | a present sortBy passes through verbatim, even when empty, and an absent one becomes "createdAt" |
| `PathController.EffectiveSortOrder` | backend/src/controllers/path.controller.ts:110-113 | the order is ascending if and only if the raw value is exactly "asc". Anything else, and the absent default "desc", give descending |
| `PathController.PaginationOptionsOf` | backend/src/controllers/path.controller.ts:106-114 | the options passed to the service: the page is the normalised page (non-zero) and the limit the normalised limit (non-zero, at most 100). A present sortBy is passed verbatim and an absent one becomes "createdAt". The order is ascending iff the query said exactly "asc" |
| `PathController.FiltersOf` | backend/src/controllers/path.controller.ts:94-103 | category, difficulty, search and aiRelevance are set iff the query value is non-empty, and then hold it unchanged. userId is set iff a user is authenticated, and then holds that user's id |
| `PathController.PageOfNumeral` | backend/src/controllers/path.controller.ts:107 | any non-zero page written in decimal, even with trailing text, reaches the service as that number, negative ones included |
| `PathController.LimitOfNumeral` | backend/src/controllers/path.controller.ts:108 | any non-zero limit written in decimal reaches the service as min(n, 100), negative ones included |
| `PathController.FalsyNumbersUseDefaults` | backend/src/controllers/path.controller.ts:107-108 | text that parses to NaN or 0 gives page 1 and limit 10 |
| `PathController.NegativePagePassesThrough` | backend/src/controllers/path.controller.ts:107 | "-5" gives page -5, because the code does not clamp negatives |
| `PathController.TrailingTextIgnored` | backend/src/controllers/path.controller.ts:107 | "12abc" gives page 12 |
| `PathController.ZeroFallsBack` | backend/src/controllers/path.controller.ts:107-108 | "0" gives page 1 and limit 10 |
| `PathController.NonNumericFallsBack` | backend/src/controllers/path.controller.ts:107-108 | "abc" gives page 1, and "" gives limit 10 |
| `PathController.LargeLimitCapped` | backend/src/controllers/path.controller.ts:108 | "500" gives limit 100 |
| `PathController.NegativeLimitPassesThrough` | backend/src/controllers/path.controller.ts:108 | "-3" gives limit -3 |
| `PathController.SortExamples` | backend/src/controllers/path.controller.ts:109-113 | "ASC", "Asc" and an absent value give descending, "asc" gives ascending, and an empty sortBy is passed on as "" |
| `PathController.CreatePathCatch` | backend/src/controllers/path.controller.ts:57-69 | createPath answers 400 with the error's own message iff the message is "Invalid path data", and otherwise 500 "Failed to create path" |
| `PathController.GetPathByIdCatch` | backend/src/controllers/path.controller.ts:173-190 | getPathById answers 404 iff the message is "Path not found" and 400 iff it is "Invalid path ID", both with that message. Anything else gives 500 "Failed to fetch path" |
| `PathController.UpdatePathCatch` | backend/src/controllers/path.controller.ts:220-240 | updatePath answers 404 iff "Path not found" and 400 iff "Invalid path data" or "Invalid path ID". Anything else gives 500 "Failed to update path" |
| `PathController.DeletePathCatch` | backend/src/controllers/path.controller.ts:258-275 | deletePath answers 404 iff "Path not found" and 400 iff "Invalid path ID". Anything else gives 500 "Failed to delete path" |
| `PathController.ErrorResponse` | backend/src/controllers/path.controller.ts:57-335 | the total (handler, message) to status mapping. 404 iff a by-id handler gets "Path not found". 400 iff a by-id handler gets "Invalid path ID" or create/update gets "Invalid path data". Everything else is 500 with a fixed message that does not echo the error |
| `PathController.ErrorCodes` | backend/src/controllers/path.controller.ts:138-144 | every error status is 400, 404 or 500, and search, category and stats answer 500 whatever the message |
| `PathController.ErrorMappingExamples` | backend/src/controllers/path.controller.ts:222-233 | each message is recognised only by some handlers. For example, "Invalid path data" is 400 on update but 500 on get and delete, and the lower-case "path not found" is 500 |
| `PathController.CreateRequest` | backend/src/controllers/path.controller.ts:21-38 | the service is asked to create a path iff title, description and category are all present and non-empty. The request then carries exactly those three values |
| `PathController.CreateRejectsBeforeService` | backend/src/controllers/path.controller.ts:24-31 | a missing or empty required field gives 400 "Title, description, and category are required", the same for every service, so the service is never called |
| `PathController.CreateCallsServiceWithRequiredFields` | backend/src/controllers/path.controller.ts:33-38 | with all three fields present, the response depends only on the service's answer to the call with those three fields. A difficulty in the body plays no part |
| `PathController.HandleCreatePath` | backend/src/controllers/path.controller.ts:15-70 | a body missing a required field gives 400 "Title, description, and category are required". Otherwise a created path gives 201 "Path created successfully" with its view, and a service error gives the create error mapping |
| `PathController.HandleSearchPaths` | backend/src/controllers/path.controller.ts:76-145 | on success, 200 "Paths retrieved successfully" with the service's pagination block copied unchanged and `paths` the element-wise view of the service's list, same length and order. Any error gives 500 "Failed to search paths" |
| `PathController.HandleGetPathById` | backend/src/controllers/path.controller.ts:151-191 | a found path gives 200 "Path retrieved successfully" with its view. A null path fails at `path!.id` and gives 500 "Failed to fetch path". A service error gives the getPathById error mapping |
| `PathController.HandleUpdatePath` | backend/src/controllers/path.controller.ts:197-241 | an updated path gives 200 "Path updated successfully" with its view. A null path gives 500 "Failed to update path". A service error gives the updatePath error mapping |
| `PathController.HandleDeletePath` | backend/src/controllers/path.controller.ts:247-276 | any value the service returns gives 200 "Path deleted successfully" with no data. A service error gives the deletePath error mapping |
| `PathController.HandleGetPathsByCategory` | backend/src/controllers/path.controller.ts:282-312 | on success, 200 "Paths retrieved successfully" listing every returned path's view in order, with `total` equal to the number of paths. Any error gives 500 "Failed to fetch paths by category" |
| `PathController.HandleGetPathStats` | backend/src/controllers/path.controller.ts:318-336 | the service's statistics are forwarded unchanged with 200. Any error gives 500 "Failed to get path statistics" |
| `PathController.SearchCallsServiceOnce` | backend/src/controllers/path.controller.ts:93-116 | the response depends on the service only through one call with the normalised filters and options |
| `PathController.CreateOutcomes` | backend/src/controllers/path.controller.ts:40-69 | once the service is called: a created path is 201, "Invalid path data" is 400 with that message, and any other error is 500 "Failed to create path" |
| `PathController.GetByIdOutcomes` | backend/src/controllers/path.controller.ts:157-190 | a found path is 200, "Path not found" is 404, "Invalid path ID" is 400, and any other error is 500 "Failed to fetch path" |
| `PathController.UpdateOutcomes` | backend/src/controllers/path.controller.ts:203-240 | an updated path is 200 and a null path 500 "Failed to update path". "Path not found" is 404, "Invalid path data" and "Invalid path ID" are 400, and any other error is 500 "Failed to update path" |
| `PathController.DeleteOutcomes` | backend/src/controllers/path.controller.ts:253-275 | a returned value is 200 with no data. "Path not found" is 404, "Invalid path ID" is 400, and any other error, "Invalid path data" included, is 500 "Failed to delete path" |

## Left out

- The Express request, response and next objects, `sendSuccessResponse`/`sendErrorResponse` and `async`/`await` are transport plumbing. A handler is a function returning a `Response` value.
- The path service is not specified: search matching, sorting, skip/limit, the computation of `totalPages`/`hasNext`/`hasPrev`, statistics aggregation, persistence and id validation. The shape of the statistics object also belongs to the service; `Stats` is forwarded unchanged.
- The relevance ("AI recommendation") meaning of `aiRelevance` and `userId`: only whether the fields are present is modelled.
- The seeding script `backend/src/test-data.ts` is database I/O and console output only.
- Authentication: only whether a user is attached to the request, and that user's id.
- `EcmaParseInt.ParseInt`: values are unbounded integers. JavaScript's double precision for very long digit strings is not modelled, and -0 is folded into 0. Both zeros are falsy, and the result is only used under `||`.
- Query values that arrive as arrays (a repeated parameter) are not modelled. Each query value is absent or one string.
- `PathController.CreateRequest`: body fields are absent or strings. Non-string JSON values (numbers, booleans, null), whose truthiness differs, are not modelled.
- Path timestamps are opaque integers, and steps are opaque identifiers copied through unchanged.
- `PathController.HandleGetPathById`, `PathController.HandleUpdatePath`: the text of the TypeError raised by `path!.id` on a null path is engine-specific. The model uses one fixed message. Each handler's answer (500 with its generic message) does not depend on that text.
