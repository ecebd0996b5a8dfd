/** The request orchestrator: `UserController`, which validates requests,
    consults the user directory, calls the weather gateway and assembles the
    responses. A thrown exception is returned as a `Failure` carrying a `Thrown` exception, which
    `Exceptions.Handle` turns into the response the client sees. */
module Controller {
  import opened Wrappers
  import opened Exceptions
  import opened ZipCodes
  import opened Users
  import opened Weather

  /** `WeatherResponseDTO`; a field the controller never sets is `None`. */
  datatype WeatherResponseDTO = WeatherResponseDTO(
    email: Option<string>,
    zipCode: Option<string>,
    weatherDetails: Option<string>,
    timestamp: Option<Timestamp>)

  const InvalidEmailMessage: string := "Email is invalid"
  const RegisteredMessage: string := "User registered successfully"
  const ActivatedMessage: string := "User activated successfully"
  const DeactivatedMessage: string := "User deactivated successfully"
  const NotRegisteredDetails: string := "User not found. Please register and then use the API."
  const InactiveDetails: string := "User is inactive. Please activate your account to use the API."

  /** The registration check: the email contains `@`. */
  predicate IsValidEmail(email: string) {
    '@' in email
  }

  /** An error body: only `weatherDetails` is set. */
  function ErrorBody(details: string): WeatherResponseDTO {
    WeatherResponseDTO(None, None, Some(details), None)
  }

  /** The response object built from one log entry. */
  function ResponseOf(w: WeatherRequest): (d: WeatherResponseDTO)
    ensures RequestOf(d) == Some(w)
  {
    WeatherResponseDTO(Some(w.email), Some(w.zipCode), Some(w.weatherDetails), Some(w.timestamp))
  }

  /** The entry a fully populated response object was built from. */
  function RequestOf(d: WeatherResponseDTO): (r: Option<WeatherRequest>)
    ensures r.Some? <==> d.email.Some? && d.zipCode.Some? && d.weatherDetails.Some? && d.timestamp.Some?
  {
    if d.email.Some? && d.zipCode.Some? && d.weatherDetails.Some? && d.timestamp.Some? then
      Some(WeatherRequest(d.email.value, d.zipCode.value, d.weatherDetails.value, d.timestamp.value))
    else None
  }

  /** The `stream().map(...).toList()` of `getHistory`: one response per
      entry, in the same order, each carrying its entry's four fields. */
  function ToResponses(history: seq<WeatherRequest>): (r: seq<WeatherResponseDTO>)
    ensures |r| == |history|
    ensures forall i :: 0 <= i < |history| ==> RequestOf(r[i]) == Some(history[i])
  {
    if history == [] then [] else [ResponseOf(history[0])] + ToResponses(history[1..])
  }

  class UserController {
    const userService: UserService
    const weatherService: WeatherService

    ghost predicate Valid()
      reads this, userService
    {
      userService.Valid()
    }

    constructor (userService: UserService, weatherService: WeatherService)
      requires userService.Valid()
      ensures Valid()
      ensures this.userService == userService && this.weatherService == weatherService
    {
      this.userService := userService;
      this.weatherService := weatherService;
    }

    /** `registerUser`: an email without `@` is refused before the directory
        is consulted; otherwise the directory registers it once. */
    method RegisterUser(email: string) returns (r: Result<Response<string>, Thrown>)
      requires Valid()
      modifies userService
      ensures Valid()
      ensures !IsValidEmail(email) ==>
                r == Failure(InvalidEmailFormat(InvalidEmailMessage)) && userService.users == old(userService.users)
      ensures IsValidEmail(email) && email in old(userService.users) ==>
                r == Failure(UserAlreadyRegistered(AlreadyRegisteredMessage)) && userService.users == old(userService.users)
      ensures IsValidEmail(email) && email !in old(userService.users) ==>
                && r == Success(Response(OK, RegisteredMessage))
                && userService.users == old(userService.users)[email := User(email, true)]
    {
      if !IsValidEmail(email) {
        return Failure(InvalidEmailFormat(InvalidEmailMessage));
      }
      var registered := userService.RegisterUser(email);
      if registered.Failure? {
        return Failure(registered.error);
      }
      r := Success(Response(OK, RegisteredMessage));
    }

    /** `getWeather`: checks, in this order, that the user exists, that it
        is active and that the ZIP code is valid; only then fetches once and
        logs once. An early exit fetches nothing and logs nothing. */
    method GetWeather(email: string, zipCode: string, outcome: ProviderOutcome, now: Timestamp)
      returns (r: Result<Response<Option<WeatherResponseDTO>>, Thrown>)
      requires Valid()
      modifies weatherService
      ensures Valid()
      ensures email !in userService.users ==>
                && r == Success(Response(BAD_REQUEST, Some(ErrorBody(NotRegisteredDetails))))
                && weatherService.log == old(weatherService.log)
                && weatherService.fetched == old(weatherService.fetched)
      ensures email in userService.users && !userService.users[email].active ==>
                && r == Success(Response(FORBIDDEN, Some(ErrorBody(InactiveDetails))))
                && weatherService.log == old(weatherService.log)
                && weatherService.fetched == old(weatherService.fetched)
      ensures email in userService.users && userService.users[email].active && !IsValidUSZipCode(zipCode) ==>
                && r == Success(Response(BAD_REQUEST, None))
                && weatherService.log == old(weatherService.log)
                && weatherService.fetched == old(weatherService.fetched)
      ensures email in userService.users && userService.users[email].active && IsValidUSZipCode(zipCode) ==>
                && weatherService.fetched ==
                     old(weatherService.fetched) + [RequestUrl(weatherService.weatherApiUrl, zipCode, weatherService.appId)]
                && (outcome.Payload? ==>
                      && weatherService.log == old(weatherService.log) + [WeatherRequest(email, zipCode, outcome.body, now)]
                      && r == Success(Response(OK, Some(WeatherResponseDTO(Some(email), Some(zipCode), Some(outcome.body), Some(now))))))
                && (!outcome.Payload? ==>
                      && weatherService.log == old(weatherService.log)
                      && r == Failure(FetchResult(outcome).error))
    {
      var user := userService.GetUserByEmail(email);
      if user.None? {
        return Success(Response(BAD_REQUEST, Some(ErrorBody(NotRegisteredDetails))));
      }
      if !user.value.active {
        return Success(Response(FORBIDDEN, Some(ErrorBody(InactiveDetails))));
      }
      if !IsValidUSZipCode(zipCode) {
        return Success(Response(BAD_REQUEST, None));
      }
      var details := weatherService.GetWeatherByZipCode(zipCode, outcome);
      if details.Failure? {
        return Failure(details.error);
      }
      var saved := weatherService.SaveWeatherRequest(email, zipCode, details.value, now);
      var body := WeatherResponseDTO(Some(email), Some(zipCode), Some(details.value), Some(saved.timestamp));
      r := Success(Response(OK, Some(body)));
    }

    /** `getHistory`: 200 with one response per matching log entry, in the
        order the query returns them. */
    method GetHistory(zipCode: string, email: string) returns (r: Response<seq<WeatherResponseDTO>>)
      ensures r.status == OK
      ensures |r.body| == |FindByZipCodeOrEmail(weatherService.log, zipCode, email)|
      ensures forall i :: 0 <= i < |r.body| ==>
                RequestOf(r.body[i]) == Some(FindByZipCodeOrEmail(weatherService.log, zipCode, email)[i])
    {
      var history := weatherService.GetHistory(zipCode, email);
      r := Response(OK, ToResponses(history));
    }

    /** `activateUser`: 200 when the directory activates the user; its
        failure is passed on otherwise. */
    method ActivateUser(email: string) returns (r: Result<Response<string>, Thrown>)
      requires Valid()
      modifies userService
      ensures Valid()
      ensures email in old(userService.users) ==>
                r == Success(Response(OK, ActivatedMessage)) &&
                userService.users == WithActive(old(userService.users), email, true)
      ensures email !in old(userService.users) ==>
                r == Failure(Runtime(UserNotFoundMessage)) && userService.users == old(userService.users)
    {
      var done := userService.ActivateUser(email);
      if done.Fail? {
        return Failure(done.error);
      }
      r := Success(Response(OK, ActivatedMessage));
    }

    /** `deactivateUser`: 200 when the directory deactivates the user; its
        failure is passed on otherwise. */
    method DeactivateUser(email: string) returns (r: Result<Response<string>, Thrown>)
      requires Valid()
      modifies userService
      ensures Valid()
      ensures email in old(userService.users) ==>
                r == Success(Response(OK, DeactivatedMessage)) &&
                userService.users == WithActive(old(userService.users), email, false)
      ensures email !in old(userService.users) ==>
                r == Failure(Runtime(UserNotFoundMessage)) && userService.users == old(userService.users)
    {
      var done := userService.DeactivateUser(email);
      if done.Fail? {
        return Failure(done.error);
      }
      r := Success(Response(OK, DeactivatedMessage));
    }
  }
}
