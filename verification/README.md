# tcgweatherapi core, modelled in Dafny

A model of the request-handling core of the `tcgweatherapi` Spring Boot
service. Clients register an email, ask for the current weather at a US ZIP
code on behalf of an active user, and read back the history of past lookups.
The model covers five parts:

- `ZipCodes` (`zip_codes.dfy`) is the ZIP validator. The pattern
  `^(\d{5})(?:[-\s]\d{4})?$` is matched over the whole string. The matcher is
  proved to accept exactly five digits, or ten characters with a dash or
  whitespace at index 5 and digits everywhere else. Java's `\d` is `[0-9]`,
  and `\s` is space, tab, line feed, vertical tab, form feed and carriage
  return. A Dafny predicate is total and has no effects, just like the
  static validator.
- `Users` (`users.dfy`) is the user directory. The class `UserService`
  holds the user repository as a `map` from email to `User`. Its invariant
  is that every user is filed under its own email, so no two users share an
  email. Register, look up, activate and deactivate state the whole new
  store, including the error paths, which write nothing.
- `Weather` (`weather.dfy`) is the weather gateway. The class
  `WeatherService` keeps the request log as a `seq` and appends one entry
  per save. It also has a ghost trace of every URL requested from the
  provider, so "no fetch" and "exactly one fetch" can be stated.
  `findByZipCodeOrEmail` is a filter with OR semantics. It returns matches
  in the order they were saved; the source's query leaves order open.
  The provider's answer to a GET is an input: a payload, a 4xx client
  error, or any other failure.
- `Controller` (`controller.dfy`) is the orchestrator. The class
  `UserController` runs the checks in the source's order and states every
  response and every effect. A thrown exception is returned as a `Failure`.
- `Exceptions` (`exceptions.dfy`) holds the exception kinds and
  `GlobalExceptionHandler`, which turns each kind into a status and a body.
- `Scenarios` (`scenarios.dfy`) plays request sequences from the
  repository's tests against fresh objects. Each is proved from the
  operations' contracts alone.
- `Wrappers` (`wrappers.dfy`) holds `Option`, `Result` and `Outcome`. These
  stand in for Java's `null` returns and thrown exceptions.

The code and its documentation disagree in places; the model follows the
code:

- The duplicate-registration message is "Already user registered" (the
  code), not "User already registered" (the unit test).
- A provider failure other than a 4xx carries the provider's own message
  after the fixed prefix. It is not a generic message alone.
- An unknown user asking for weather gets status 400, as the code returns,
  not 403 as the endpoint's documentation says.

## Model

| member | source | states |
|---|---|---|
| `ZipCodes.MatchRun` | src/main/java/com/tcg/tcgweatherapi/validator/ZipCodeValidator.java:7-8 | a run of character classes matches iff the string is long enough and each leading character is in its class; the rest of the string is returned |
| `ZipCodes.IsValidUSZipCode` | src/main/java/com/tcg/tcgweatherapi/validator/ZipCodeValidator.java:16-18 | whole-string match of `^(\d{5})(?:[-\s]\d{4})?$`; every accepted string has length exactly 5 or 10 |
| `ZipCodes.ValidIffShape` | src/main/java/com/tcg/tcgweatherapi/validator/ZipCodeValidator.java:7-8 | accepted iff five digits, or length 10 with a dash or `\s` character at index 5 and digits at every other index |
| `ZipCodes.FiveDigitsAccepted` | src/main/java/com/tcg/tcgweatherapi/validator/ZipCodeValidator.java:7-8 | any string of exactly five characters `0`-`9` is accepted |
| `ZipCodes.ZipPlusFourAccepted` | src/main/java/com/tcg/tcgweatherapi/validator/ZipCodeValidator.java:7-8 | five digits, a dash or whitespace separator, then four digits is accepted |
| `ZipCodes.AcceptedExamples` | src/main/java/com/tcg/tcgweatherapi/validator/ZipCodeValidator.java:7-8 | "12345", "12345-6789" and "12345\t6789" are accepted |
| `ZipCodes.RejectedExamples` | src/main/java/com/tcg/tcgweatherapi/validator/ZipCodeValidator.java:8 | "1234", "123456", "abcde", "123456789", "12345_6789", "12345-678a" and "" are rejected |
| `Exceptions.Handle` | src/main/java/com/tcg/tcgweatherapi/exceptions/GlobalExceptionHandler.java:11-24 | duplicate registration gives 409, malformed email 400, any other exception 500; the body is the exception's message unchanged |
| `Exceptions.HandleStatusDeterminesKind` | src/main/java/com/tcg/tcgweatherapi/exceptions/GlobalExceptionHandler.java:11-24 | a client-error status means one of the two typed exceptions; two failures get the same status iff they are the same kind |
| `Users.WithActive` | src/main/java/com/tcg/tcgweatherapi/service/UserService.java:75-100 | setting a user's flag keeps the set of emails, changes only that user's flag and leaves every other user as it was |
| `Users.AtMostOneUserPerEmail` | src/main/java/com/tcg/tcgweatherapi/entity/User.java:17 | under the store invariant, two stored users with the same email are the same entry |
| `Users.WithActiveKeepsEmailKeyed` | src/main/java/com/tcg/tcgweatherapi/service/UserService.java:75-100 | activate and deactivate preserve the one-user-per-email invariant |
| `Users.WithActiveIdempotent` | src/main/java/com/tcg/tcgweatherapi/service/UserService.java:75-100 | activating (or deactivating) twice leaves the same store as doing it once |
| `Users.WithActiveUnchangedWhenSet` | src/main/java/com/tcg/tcgweatherapi/service/UserService.java:75-82 | activating an already active user (or deactivating an inactive one) leaves the store unchanged |
| `Users.UserService.GetUserByEmail` | src/main/java/com/tcg/tcgweatherapi/service/UserService.java:62-64 | returns the user stored under exactly that email, whose email is that email, or none iff absent; the store is not changed |
| `Users.UserService.RegisterUser` | src/main/java/com/tcg/tcgweatherapi/service/UserService.java:43-51 | a new email adds exactly one user with that email, active, and returns it; a present email fails with "Already user registered" and saves nothing; the invariant is kept |
| `Users.UserService.ActivateUser` | src/main/java/com/tcg/tcgweatherapi/service/UserService.java:75-82 | a present user's flag becomes true and nothing else changes; an absent email fails with "User not found" and writes nothing |
| `Users.UserService.DeactivateUser` | src/main/java/com/tcg/tcgweatherapi/service/UserService.java:93-100 | a present user's flag becomes false and nothing else changes; an absent email fails with "User not found" and writes nothing |
| `Weather.RequestUrl` | src/main/java/com/tcg/tcgweatherapi/service/WeatherService.java:55 | the provider URL is the configured base, then `?zip=` and the ZIP code, `&appid=` and the key, then `&units=imperial` |
| `Weather.ZipParameterRoundTrip` | src/main/java/com/tcg/tcgweatherapi/service/WeatherService.java:55 | the URL is the base, then `?zip=` and the ZIP code, then `&appid=...&units=imperial`; a ZIP code without `&` is read back unchanged |
| `Weather.ValidZipRoundTrip` | src/main/java/com/tcg/tcgweatherapi/service/WeatherService.java:55 | every valid US ZIP code is read back unchanged from the URL built for it |
| `Weather.FetchResult` | src/main/java/com/tcg/tcgweatherapi/service/WeatherService.java:56-64 | success iff the provider returned a payload, which is passed on unchanged; a 4xx becomes "Error fetching weather data: " + message, any other failure "Unexpected error occurred while fetching weather data: " + message |
| `Weather.FetchFailureReported` | src/main/java/com/tcg/tcgweatherapi/service/WeatherService.java:58-64 | a failed fetch reaches the client as 500 with its kind's prefix, and a client error and an other error never yield the same failure |
| `Weather.MatchesZipCodeOrEmail` | src/main/java/com/tcg/tcgweatherapi/repository/WeatherRequestRepository.java:9 | an entry matches when its zip code equals the given one OR its email equals the given one |
| `Weather.FindByZipCodeOrEmail` | src/main/java/com/tcg/tcgweatherapi/repository/WeatherRequestRepository.java:9 | an entry is in the result iff it is in the log and its zip code or its email matches; never longer than the log |
| `Weather.FindDistributes` | src/main/java/com/tcg/tcgweatherapi/repository/WeatherRequestRepository.java:9 | the query over two concatenated logs is the concatenation of the queries, so matches come back in the model's save order |
| `Weather.FindAllMatching` | src/main/java/com/tcg/tcgweatherapi/repository/WeatherRequestRepository.java:9 | when every entry matches, the query returns the log itself, same elements in the same order |
| `Weather.HistoryAfterAppend` | src/main/java/com/tcg/tcgweatherapi/service/WeatherService.java:79-100 | after one save, the history is the earlier history followed by the new entry exactly when it matches |
| `Weather.WeatherService.GetWeatherByZipCode` | src/main/java/com/tcg/tcgweatherapi/service/WeatherService.java:54-65 | exactly one GET, of the URL built from base, ZIP code and key, is issued, and its outcome is classified as above |
| `Weather.WeatherService.SaveWeatherRequest` | src/main/java/com/tcg/tcgweatherapi/service/WeatherService.java:79-86 | appends exactly one entry holding the given email, ZIP code, details and clock reading, returns it, and leaves earlier entries unchanged |
| `Weather.WeatherService.GetHistory` | src/main/java/com/tcg/tcgweatherapi/service/WeatherService.java:98-100 | returns the query result unchanged: exactly the log entries with that ZIP code or that email; an empty log gives an empty list |
| `Controller.IsValidEmail` | src/main/java/com/tcg/tcgweatherapi/controller/UserController.java:51 | the only email check at registration: the email contains `@` |
| `Controller.ResponseOf` | src/main/java/com/tcg/tcgweatherapi/controller/UserController.java:132-137 | the response object built from a log entry carries all four of its fields: the entry can be read back from it unchanged |
| `Controller.ToResponses` | src/main/java/com/tcg/tcgweatherapi/controller/UserController.java:130-138 | one response object per entry, in the same order, each carrying its entry's four fields |
| `Controller.UserController.constructor` | src/main/java/com/tcg/tcgweatherapi/controller/UserController.java:30-33 | the controller holds the given directory and gateway |
| `Controller.UserController.RegisterUser` | src/main/java/com/tcg/tcgweatherapi/controller/UserController.java:50-56 | an email without `@` fails with "Email is invalid" before the directory is touched; otherwise the directory's duplicate failure is passed on, or exactly one active user is added and 200 "User registered successfully" returned |
| `Controller.UserController.GetWeather` | src/main/java/com/tcg/tcgweatherapi/controller/UserController.java:75-109 | absent user gives 400 with the "not found" details; inactive user gives 403, before the ZIP check; invalid ZIP gives 400 with no body; none of these fetches or logs. Otherwise exactly one fetch, and on a payload one log entry and 200 with the inputs, the payload and the entry's timestamp; a failed fetch logs nothing and passes the failure on |
| `Controller.UserController.GetHistory` | src/main/java/com/tcg/tcgweatherapi/controller/UserController.java:126-141 | 200 with a list as long as the query result, element i carrying exactly the fields of entry i |
| `Controller.UserController.ActivateUser` | src/main/java/com/tcg/tcgweatherapi/controller/UserController.java:157-162 | 200 "User activated successfully" with the user's flag set, or the directory's "User not found" failure with no write |
| `Controller.UserController.DeactivateUser` | src/main/java/com/tcg/tcgweatherapi/controller/UserController.java:178-183 | 200 "User deactivated successfully" with the user's flag cleared, or the directory's "User not found" failure with no write |
| `Scenarios.RegisterTwice` | src/test/java/com/tcg/tcgweatherapi/service/UserServiceTest.java:47-62 | registering one email twice gives 200 then 409 with the directory's message, and the store then holds only the one active user from the first call |
| `Scenarios.WeatherForInactiveUser` | src/test/java/com/tcg/tcgweatherapi/controller/UserControllerTest.java:78-91 | a registered then deactivated user gets 403 with the "inactive" details for any ZIP code, with no fetch and no log entry |
| `Scenarios.UnknownUser` | src/test/java/com/tcg/tcgweatherapi/controller/UserControllerTest.java:66-76 | an unknown user's weather lookup gives 400 with the "not found" details and logs nothing; activating an unknown user gives 500 "User not found" |
| `Scenarios.WeatherThenHistory` | src/test/java/com/tcg/tcgweatherapi/controller/UserControllerTest.java:109-134 | an active user with a valid ZIP code gets 200 with its email, its ZIP code, the payload unchanged and the clock reading, and the history for that ZIP code then holds exactly that lookup |

## Left out

- The HTTP call (`RestTemplate.getForObject`) is not modelled. The provider's answer is an input `ProviderOutcome`. A `null` payload is not modelled.
- The configured base URL and application key (`@Value`) are constructor parameters of `WeatherService`.
- `LocalDateTime.now()` is not modelled. The clock reading is an input `Timestamp`.
- Generated ids of `User` and `WeatherRequest` are not modelled, and the user returned by registration carries none. Nothing in the core reads an id.
- JPA persistence and `@Transactional` are not modelled. The repositories are a map and a sequence, and each method runs as one atomic step.
- The check-then-act race between two concurrent registrations of one email is not modelled; concurrency is out of scope.
- `findByZipCodeOrEmail` with `null` arguments is not modelled. Both filters are present strings, because the query derivation that decides the null case is not part of this model.
- Bean Validation annotations (`@Email`, `@NotBlank`, `@Column(unique = true)`) are not modelled. No controller method uses `@Valid`, and the only email check in the code is the `@` test.
- A `null` email in the registration body, which throws a NullPointerException, is not modelled. Emails are always strings.
- `Weather.FindByZipCodeOrEmail`: the derived query has no ORDER BY, so the source guarantees no order. The model returns matches in save order. The order stated by `Weather.FindDistributes`, `Weather.HistoryAfterAppend`, `Weather.FindAllMatching` and `Scenarios.WeatherThenHistory` is the model's choice, not a guarantee of the source.
- Spring routing, JSON serialization, Swagger annotations and Lombok accessors are not modelled.
- `Weather.WeatherService.GetWeatherByZipCode`'s trace of requested URLs is ghost state. It records what was requested, not a network effect.
