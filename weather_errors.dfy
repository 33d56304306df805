/**
 * The errors of the get-weather-by-CEP feature
 * (features/weather/getWeatherByCep/get_weather_by_cep_errors.go).
 */
module WeatherErrors {
  import opened HttpStatus
  import opened ApiErrors

  const CodeInvalidZipcode: string := "INVALID_ZIPCODE"
  const CodeZipcodeNotFound: string := "ZIPCODE_NOT_FOUND"
  /** Declared by the feature but used by none of its constructors. */
  const CodeWeatherServiceError: string := "WEATHER_SERVICE_ERROR"

  /** `NewInvalidZipcodeError`: 422, built with `NewAPIError`, so without a context. */
  function NewInvalidZipcodeError(): (e: APIError)
    ensures e.code == CodeInvalidZipcode && e.message == "invalid zipcode"
    ensures e.statusCode == StatusUnprocessableEntity && e.context == ""
    ensures e.causes == ["The provided zipcode format is invalid"]
    ensures KindOf(e) == Plain
  {
    NewAPIError(CodeInvalidZipcode, "invalid zipcode", StatusUnprocessableEntity,
      ["The provided zipcode format is invalid"])
  }

  /** `NewZipcodeNotFoundError`: 404, built with `NewAPIError`, so without a context. */
  function NewZipcodeNotFoundError(): (e: APIError)
    ensures e.code == CodeZipcodeNotFound && e.message == "can not find zipcode"
    ensures e.statusCode == StatusNotFound && e.context == ""
    ensures e.causes == ["The provided zipcode was not found"]
    ensures KindOf(e) == Plain
  {
    NewAPIError(CodeZipcodeNotFound, "can not find zipcode", StatusNotFound,
      ["The provided zipcode was not found"])
  }

  /** `NewWeatherServiceError`: a shared external-service error (502), whose code is
    * `EXTERNAL_SERVICE_ERROR` and not the feature's own `WEATHER_SERVICE_ERROR`. */
  function NewWeatherServiceError(): (e: APIError)
    ensures e.code == CodeExternalService && e.code != CodeWeatherServiceError
    ensures e.message == "Weather service temporarily unavailable"
    ensures e.statusCode == StatusBadGateway && e.context == ExternalError
    ensures e.causes == ["Unable to fetch weather data from external service"]
    ensures KindOf(e) == External
  {
    NewExternalServiceError("Weather service temporarily unavailable",
      ["Unable to fetch weather data from external service"])
  }

  /** `NewWeatherValidationError`: the shared validation error. */
  function NewWeatherValidationError(message: string, causes: seq<string>): (e: APIError)
    ensures e == NewValidationError(message, causes)
    ensures KindOf(e) == Validation
  {
    NewValidationError(message, causes)
  }

  /** `NewWeatherBusinessError`: the shared business error. */
  function NewWeatherBusinessError(code: string, message: string, causes: seq<string>): (e: APIError)
    ensures e == NewBusinessError(code, message, causes)
    ensures KindOf(e) == Business
  {
    NewBusinessError(code, message, causes)
  }

  /** `NewWeatherExternalError`: the shared external-service error. */
  function NewWeatherExternalError(message: string, causes: seq<string>): (e: APIError)
    ensures e == NewExternalServiceError(message, causes)
    ensures KindOf(e) == External
  {
    NewExternalServiceError(message, causes)
  }

  /** The three errors the use case raises are pairwise different and each carries one cause,
    * so a caller can tell the failing step from the error alone. */
  lemma FeatureErrorsDistinct()
    ensures NewInvalidZipcodeError() != NewZipcodeNotFoundError()
    ensures NewInvalidZipcodeError() != NewWeatherServiceError()
    ensures NewZipcodeNotFoundError() != NewWeatherServiceError()
    ensures |NewInvalidZipcodeError().causes| == 1 && |NewZipcodeNotFoundError().causes| == 1
    ensures |NewWeatherServiceError().causes| == 1
  {
  }
}
