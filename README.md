# Weather by CEP: a Dafny model of the validation and decision layer

The service answers `GET /api/v1/weather/:cep` with the current temperature, in Celsius,
Fahrenheit and Kelvin, at the address of a Brazilian postal code (CEP). This project models
the part of the service that decides what happens to a request. That part has four pieces:

- **The CEP value object** (`CepValueObject`, cep.dfy). It trims white space with the Unicode
  White_Space set of `strings.TrimSpace`. It accepts `DDDDD-DDD` or `DDDDDDDD` with ASCII digits,
  matching the two anchored regular expressions. It rewrites the eight-digit form into the
  dashed form.
- **The error taxonomy** (`ApiErrors` and `HttpStatus` in api_error.dfy, `WeatherErrors` in
  weather_errors.dfy). There is the shared `APIError` record, its seven constructors and the
  feature's three errors, plus the wrappers that delegate to the shared constructors.
- **The use case** (`GetWeatherByCepUseCase`, usecase.dfy). `Execute` validates the CEP, then
  looks up the address, then looks up the weather for the address's city, then adds Kelvin.
  The two lookups are oracle functions that return `Ok(value)` or `Failed(reason)`. The result
  records which lookups were made, in order, and with which argument.
- **The HTTP adapter** (`HttpResponse` in error_response.dfy, `WeatherController` in
  weather_controller.dfy). The `RespondWith*` builders return the status and the
  `{data, message, causes}` envelope that gin's `c.JSON` would write. `GetWeatherByCep` maps the
  path parameter, the use case's answer and the deadline flag to "whether and with what the use
  case was called" and "which reply, if any, was written". `Serve` composes the controller with
  `Execute`, and gives the end-to-end statuses 400, 422, 404, 502 and 200.

Temperatures are `real`, so `TempK = TempC + 273.15` holds exactly.

When the weather lookup fails, the code returns the shared external-service error, whose code is
`EXTERNAL_SERVICE_ERROR` (get_weather_by_cep_errors.go:33-38). The feature also declares
`WEATHER_SERVICE_ERROR` (get_weather_by_cep_errors.go:12), but no code uses it: only the
constant's name suggests it was meant for the weather error. The model follows the code.

## Model

| member | source | states |
|---|---|---|
| CepValueObject.NewCep | shared/domain/valueObjects/cep.go:11-23 | Succeeds exactly when the trimmed input is `DDDDD-DDD` or `DDDDDDDD`. Every accepted value has nine characters, with `-` at index 5 and ASCII digits elsewhere. A rejection returns the empty `Cep` and "CEP inválido". |
| CepValueObject.IsValidCepShape | shared/domain/valueObjects/cep.go:25-29 | The two anchored patterns `^\d{5}-\d{3}$` and `^\d{8}$` match exactly the dashed and the plain shapes, stated position by position. |
| CepValueObject.FullMatchPointwise | shared/domain/valueObjects/cep.go:26-28 | An anchored fixed-width pattern matches a string iff the lengths agree and every atom matches its character. |
| CepValueObject.IsSpace | shared/domain/valueObjects/cep.go:12 | The white space `strings.TrimSpace` removes: Go's `unicode.IsSpace`, the Unicode White_Space set. |
| CepValueObject.FullMatch | shared/domain/valueObjects/cep.go:26-28 | `MatchString` of an anchored (`^…$`) fixed-width pattern: the whole string is consumed, one atom per character. |
| CepValueObject.IsValidCep | shared/domain/valueObjects/cep.go:25-29 | `isValidCep`: either anchored pattern matches. What that accepts is stated by `IsValidCepShape`. |
| CepValueObject.TrimSpace | shared/domain/valueObjects/cep.go:12 | The result is a contiguous slice of the input with only white space outside it, and neither end of the result is white space. |
| CepValueObject.TrimLeft | shared/domain/valueObjects/cep.go:12 | Drops the longest white prefix: the result is a suffix, what was dropped is all white space, and the result does not start with white space. |
| CepValueObject.TrimRight | shared/domain/valueObjects/cep.go:12 | Drops the longest white suffix, symmetrically. |
| CepValueObject.TrimSpaceIgnoresPadding | shared/domain/valueObjects/cep.go:12 | `TrimSpace(p + s + q) == TrimSpace(s)` for any white `p` and `q`. |
| CepValueObject.NewCepIgnoresPadding | shared/domain/valueObjects/cep.go:12 | `NewCep(p + s + q) == NewCep(s)` for any white `p` and `q`. |
| CepValueObject.NewCepInsertsDash | shared/domain/valueObjects/cep.go:18-20 | Eight trimmed digits `t` come back as `t[..5] + "-" + t[5..]`. |
| CepValueObject.PlainGainsDash | shared/domain/valueObjects/cep.go:18-20 | Putting a dash after the fifth of eight digits gives the dashed shape, so every rewritten value is canonical. |
| CepValueObject.NewCepOfPlain | shared/domain/valueObjects/cep.go:11-22 | Eight digits with no white space around them are accepted and come back as `s[..5] + "-" + s[5..]`. |
| CepValueObject.NewCepKeepsCanonical | shared/domain/valueObjects/cep.go:11-22 | A value already in the dashed shape is accepted and comes back unchanged. |
| CepValueObject.NewCepKeepsDashed | shared/domain/valueObjects/cep.go:18-22 | An input whose trimmed form is already dashed comes back as that trimmed form. |
| CepValueObject.NewCepIdempotent | shared/domain/valueObjects/cep.go:14-22 | Validating an accepted value's `String()` again gives the same result. |
| CepValueObject.NewCepRejectsBlank | shared/domain/valueObjects/cep.go:14-16 | The empty string and any string of white space alone are rejected, with the empty `Cep`. |
| CepValueObject.NewCepRejectsUnpadded | shared/domain/valueObjects/cep.go:14-16 | A string without white space at its ends, in neither shape, is rejected with the empty `Cep`. |
| CepValueObject.Cep.String | shared/domain/valueObjects/cep.go:31-33 | Wrapping the returned string again gives back the same `Cep`. |
| CepValueObject.NewCepDashedExample | shared/domain/valueObjects/cep_test.go:15-19 | "12345-678" is accepted unchanged. |
| CepValueObject.NewCepPlainExample | shared/domain/valueObjects/cep_test.go:21-25 | "12345678" becomes "12345-678". |
| CepValueObject.NewCepPaddedExample | shared/domain/valueObjects/cep.go:12 | " 12345678 " gives the same result as "12345678". |
| CepValueObject.NewCepTooShortExample | shared/domain/valueObjects/cep_test.go:26-30 | "1234-567" is rejected. |
| CepValueObject.NewCepTooLongExample | shared/domain/valueObjects/cep_test.go:31-35 | "123456-789" is rejected. |
| CepValueObject.NewCepLetterExample | shared/domain/valueObjects/cep_test.go:36-40 | "1234a-678" is rejected. |
| CepValueObject.NewCepEmptyExample | shared/domain/valueObjects/cep_test.go:41-45 | "" is rejected with the empty `Cep` and "CEP inválido". |
| CepValueObject.NewCepSpacesExample | shared/domain/valueObjects/cep_test.go:46-50 | "     " is rejected with the empty `Cep` and "CEP inválido". |
| CepValueObject.NewCepSpecialCharacterExample | shared/domain/valueObjects/cep_test.go:51-55 | "12345@678" is rejected. |
| CepValueObject.NewCepLowestExample | shared/domain/valueObjects/cep_test.go:95-96 | "00000-000" is accepted unchanged. |
| CepValueObject.NewCepHighestExample | shared/domain/valueObjects/cep_test.go:95-97 | "99999-999" is accepted unchanged. |
| CepValueObject.NewCepLettersExample | shared/domain/valueObjects/cep_test.go:113 | "abcde-fgh" is rejected. |
| CepValueObject.NewCepTrailingLetterExample | shared/domain/valueObjects/cep_test.go:114 | "12345-67a" is rejected. |
| CepValueObject.NewCepTooManyDigitsExample | shared/domain/valueObjects/cep_test.go:115 | "1234567890" is rejected. |
| ApiErrors.APIError.Error | shared/errors/api_error.go:15-17 | `Error()` is the message: putting it back as the message leaves the error unchanged. |
| ApiErrors.NewAPIError | shared/errors/api_error.go:52-59 | Code, message, status and causes are stored verbatim, and the context is empty. |
| ApiErrors.NewValidationError | shared/errors/api_error.go:61-69 | `INVALID_INPUT`, 400, context "validation"; message and causes passed through. |
| ApiErrors.NewBusinessError | shared/errors/api_error.go:71-79 | The caller's code, 400, context "business"; message and causes passed through. |
| ApiErrors.NewNotFoundError | shared/errors/api_error.go:81-89 | `RESOURCE_NOT_FOUND`, 404, context "business"; message and causes passed through. |
| ApiErrors.NewInternalError | shared/errors/api_error.go:91-99 | `INTERNAL_SERVER_ERROR`, 500, context "system"; message and causes passed through. |
| ApiErrors.NewExternalServiceError | shared/errors/api_error.go:101-109 | `EXTERNAL_SERVICE_ERROR`, 502, context "external"; message and causes passed through. |
| ApiErrors.NewTimeoutError | shared/errors/api_error.go:111-119 | `SERVICE_TIMEOUT`, 504, context "external"; message and causes passed through. |
| ApiErrors.KindOfConstructors | shared/errors/api_error.go:52-119 | Context and status alone tell the seven constructors apart, whatever their arguments. |
| ApiErrors.ConstructorsRebuild | shared/errors/api_error.go:52-119 | An error of a given kind, with that kind's fixed code, is rebuilt exactly by its constructor from its own message and causes. |
| ApiErrors.ErrorIsMessage | shared/errors/api_error.go:15-17 | `Error()` of every constructed error is the message it was given. |
| WeatherErrors.NewInvalidZipcodeError | features/weather/getWeatherByCep/get_weather_by_cep_errors.go:15-22 | `INVALID_ZIPCODE`, "invalid zipcode", 422, one cause, and an empty context, because it is built with `NewAPIError`. |
| WeatherErrors.NewZipcodeNotFoundError | features/weather/getWeatherByCep/get_weather_by_cep_errors.go:24-31 | `ZIPCODE_NOT_FOUND`, "can not find zipcode", 404, one cause, and an empty context. |
| WeatherErrors.NewWeatherServiceError | features/weather/getWeatherByCep/get_weather_by_cep_errors.go:33-38 | `EXTERNAL_SERVICE_ERROR` (not `WEATHER_SERVICE_ERROR`), "Weather service temporarily unavailable", 502, context "external". |
| WeatherErrors.NewWeatherValidationError | features/weather/getWeatherByCep/get_weather_by_cep_errors.go:40-42 | Equal to the shared validation error for the same arguments. |
| WeatherErrors.NewWeatherBusinessError | features/weather/getWeatherByCep/get_weather_by_cep_errors.go:44-46 | Equal to the shared business error for the same arguments. |
| WeatherErrors.NewWeatherExternalError | features/weather/getWeatherByCep/get_weather_by_cep_errors.go:48-50 | Equal to the shared external-service error for the same arguments. |
| WeatherErrors.FeatureErrorsDistinct | features/weather/getWeatherByCep/get_weather_by_cep_errors.go:15-38 | The three feature errors are pairwise different and each has one cause. |
| GetWeatherByCepUseCase.Execute | features/weather/getWeatherByCep/get_weather_by_cep_usecase.go:40-72 | Exactly one of output and error. The error is one of the three feature errors. It is `INVALID_ZIPCODE` iff the CEP is not accepted, and then nothing is looked up. The address lookup is made once, first, with the normalised CEP. The error is `ZIPCODE_NOT_FOUND` iff that lookup fails. The weather lookup is made once, second, with the address's city, iff the address was found. The error is the weather-service error iff that lookup fails. Success copies Celsius and Fahrenheit and sets Kelvin to Celsius + 273.15. |
| GetWeatherByCepUseCase.LookUp | features/weather/getWeatherByCep/get_weather_by_cep_usecase.go:49-71 | Steps 2 to 4 for a validated CEP: the same classification, trace and temperatures. |
| GetWeatherByCepUseCase.InvalidCepIsRejected | features/weather/getWeatherByCep/get_weather_by_cep_usecase.go:43-47 | A CEP `NewCep` refuses gives exactly `INVALID_ZIPCODE`, with no lookup made. |
| GetWeatherByCepUseCase.AddressFailureIsNotFound | features/weather/getWeatherByCep/get_weather_by_cep_usecase.go:49-53 | Any address failure gives exactly `ZIPCODE_NOT_FOUND` after the address lookup alone. |
| GetWeatherByCepUseCase.WeatherFailureIsServiceError | features/weather/getWeatherByCep/get_weather_by_cep_usecase.go:57-61 | Any weather failure after a found address gives exactly the weather-service error, after the two lookups. |
| GetWeatherByCepUseCase.ExecuteSuccess | features/weather/getWeatherByCep/get_weather_by_cep_usecase.go:57-71 | When both lookups answer, the result is the reading's temperatures with Kelvin added, after exactly the two lookups. |
| GetWeatherByCepUseCase.ExecuteDependsOnlyOnLookedUp | features/weather/getWeatherByCep/get_weather_by_cep_usecase.go:43-61 | Two pairs of lookups that agree on the arguments this call hands them give the same result. |
| GetWeatherByCepUseCase.PlainCepIsLookedUpDashed | features/weather/getWeatherByCep/get_weather_by_cep_usecase.go:43-49 | An eight-digit input is looked up in its dashed form, not as the raw string. |
| GetWeatherByCepUseCase.NormalisedCepExample | features/weather/getWeatherByCep/get_weather_by_cep_usecase.go:43-49 | "12345678" is looked up as "12345-678". |
| GetWeatherByCepUseCase.InvalidCepExample | features/weather/getWeatherByCep/get_weather_by_cep_usecase_test.go:88-116 | "invalid-cep" gives `INVALID_ZIPCODE` with no lookup. |
| GetWeatherByCepUseCase.SuccessExample | features/weather/getWeatherByCep/get_weather_by_cep_usecase_test.go:18-80 | 25.5 °C and 77.9 °F at São Paulo give the output (25.5, 77.9, 298.65), after looking up "12345-678" and then "São Paulo". |
| HttpResponse.RespondWithSuccess | shared/http/error_response.go:16-23 | 200, the data as given, the given message, no causes. |
| HttpResponse.RespondWithAPIError | shared/http/error_response.go:25-32 | The error's own status, message and causes, and no data. |
| HttpResponse.RespondWithError | shared/http/error_response.go:34-41 | The given status, message and causes, and no data. |
| HttpResponse.RespondWithValidationError | shared/http/error_response.go:43-46 | 400 and the validation error's message and causes. |
| HttpResponse.RespondWithBusinessError | shared/http/error_response.go:48-51 | 400 and the business error's message and causes; the code does not reach the envelope. |
| HttpResponse.RespondWithNotFound | shared/http/error_response.go:53-56 | 404 and the not-found error's message and causes. |
| HttpResponse.RespondWithInternalError | shared/http/error_response.go:58-64 | Always 500 and never an empty message. An empty message becomes "Internal server error occurred"; any other is kept. |
| HttpResponse.RespondWithExternalServiceError | shared/http/error_response.go:66-69 | 502 and the external-service error's message and causes. |
| HttpResponse.RespondWithTimeout | shared/http/error_response.go:71-77 | Always 504 and never an empty message. An empty message becomes "Request timeout exceeded"; any other is kept. |
| HttpResponse.APIErrorReplyKeeps | shared/http/error_response.go:25-32 | Two errors give the same reply iff they agree on status, message and causes. |
| HttpResponse.ErrorRepliesCarryNoData | shared/http/error_response.go:25-77 | Every error builder leaves the data out. |
| WeatherController.GetWeatherByCep | features/weather/weather_controller.go:33-65 | The use case is called iff the parameter is non-empty, and then with the raw parameter. An empty parameter gives 400 "CEP parameter is required". Nothing is written iff the use case failed past the deadline. Otherwise success gives 200 with the result and "Weather data retrieved successfully". An `APIError` gives that error's reply. Any other error gives 500 "Failed to get weather data" with its text as the one cause. |
| WeatherController.UseCaseError.Error | features/weather/weather_controller.go:58 | The text of an `APIError` is its message; the text of another error is its own. |
| WeatherController.AsUseCaseReply | features/weather/getWeatherByCep/interface.go:8-10 | The use case's result reaches the controller through the interface with the same output, as an `APIError` when it fails. |
| WeatherController.GetWeatherByCepReadsOneInput | features/weather/weather_controller.go:43-47 | The controller consults the use case only at the raw parameter. |
| WeatherController.Serve | features/weather/weather_controller.go:47 | The controller wired to `Execute` over the two lookups, as the controller's field holds the use case. |
| WeatherController.ServeUnfold | features/weather/weather_controller.go:47 | Serving a request is the controller given the use case's answer for that request. |
| WeatherController.ExpectedStatus | features/weather/weather_controller.go:36-64 | The reference classification of a request, from the parameter and the two lookups alone: 400, 422, 404, 502 or 200. |
| WeatherController.ExpectedStatusClassifies | features/weather/weather_controller.go:36-64 | Each status names exactly one kind of request: 400 iff the parameter is empty, 422 iff the CEP is malformed, 404 iff the address lookup fails, 502 iff the weather lookup fails, 200 iff both answer. |
| WeatherController.ServeStatus | features/weather/weather_controller.go:36-64 | Before the deadline a reply is always written, and its status is the reference classification `ExpectedStatus`. |
| WeatherController.ServeSuccess | features/weather/weather_controller.go:63-64 | A successful request gets 200 with the reading's Celsius and Fahrenheit, Kelvin = Celsius + 273.15, and the success message, with or without a deadline. |
| WeatherController.ServeFailure | features/weather/weather_controller.go:47-60 | A failed request is answered with the use case's status, message and causes (422, 404 or 502), unless the deadline has passed, when nothing is written. |
| WeatherController.ControllerErrorExamples | features/weather/weather_controller_test.go:80-225 | The tests' use-case answers: the invalid-zipcode error gives 422 "invalid zipcode", not-found gives 404 "can not find zipcode", the weather-service error gives 502, and "unknown error" gives 500 "Failed to get weather data" with that cause. |

## Left out

- The HTTP clients (viacep_client.go, weather_client.go) and the repositories that pass their
  results through: network I/O, TLS, JSON decoding and URL escaping. Each lookup is an oracle
  that returns `Ok(value)` or `Failed(reason)`, whatever the failure was.
- The `context.Context` passed to the lookups: cancellation folds into `Failed`. The
  controller's `ctx.Err() == context.DeadlineExceeded` test is the boolean `deadlineExceeded`.
- shared/http/server.go: gin middleware, panic recovery, the request timeout and the 504 the
  middleware writes after a deadline. The model only says that the controller writes nothing then.
- gin routing: `RegisterRoutes` and the router's own 404 for a missing path segment. The
  controller receives `c.Param("cep")` as a string.
- Configuration, logging, dependency injection and process start-up (config.go, logger.go,
  main.go, wire.go, the providers). No log call affects control flow.
- `NewGetWeatherByCepUseCase` and `NewWeatherController` only store their collaborators. Here
  the collaborators are parameters.
- IEEE-754 arithmetic: temperatures are `real`, so 25.5 + 273.15 is exactly 298.65. The
  float64 result of the Go code is not modelled.
- Go strings are byte sequences and `TrimSpace` decodes UTF-8. Strings here are sequences of
  Unicode characters, so invalid UTF-8 is not modelled.
- Go distinguishes a nil `Causes` slice from an empty one. Here both are `[]`, which is also how
  the JSON encoder treats them (`omitempty`).
- The weather response's Go type (weather/types.go) is not part of this model. `Location`,
  `Condition` and `Current` carry the fields the use case and its tests read.
- The JSON encoding of the envelope (field names, `temp_C` and so on) is not modelled. A reply is
  a status and an envelope value.
- The Go type assertion `err.(*APIError)` on a nil `*APIError` inside a non-nil `error` is not
  modelled: a use-case error is either an `APIError` value or some other error with a text.
- HttpResponse.RespondWithSuccess: Go's `Data` is an `interface{}`; here it is the use case's
  output, the only value any handler of the service passes, so replies with other payloads are
  not modelled.
