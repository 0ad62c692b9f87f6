/** Request and response shapes of the REST endpoints the stores call
    (src/api/trips.ts and src/api/auth.ts). Only the shapes are modelled:
    the requests themselves are inputs and outputs of the store operations. */
module Api {
  import opened Wrappers

  /** A trip as the server returns it. The store only ever compares `id`;
      every other field is carried through unchanged. */
  datatype Trip = Trip(
    id: int,
    userId: int,
    title: string,
    destination: string,
    startDate: string,
    endDate: string,
    budget: Option<real>,
    travelerCount: int,
    description: Option<string>,
    status: string,
    createdAt: string,
    updatedAt: string)

  /** Body of POST /trips/generate. */
  datatype TripGenerateRequest = TripGenerateRequest(
    destination: string,
    startDate: string,
    endDate: string,
    budget: Option<real>,
    travelerCount: int)

  /** Body of POST /trips/. */
  datatype TripCreate = TripCreate(
    title: string,
    destination: string,
    startDate: string,
    endDate: string,
    budget: Option<real>,
    travelerCount: int,
    description: Option<string>)

  /** Body of PUT /trips/{id}: a partial TripCreate. */
  datatype TripUpdate = TripUpdate(
    title: Option<string>,
    destination: Option<string>,
    startDate: Option<string>,
    endDate: Option<string>,
    budget: Option<real>,
    travelerCount: Option<int>,
    description: Option<string>)

  /** One call to the trips endpoints. */
  datatype TripCall =
    | ListTrips                                  // GET /trips/
    | GetTrip(id: int)                           // GET /trips/{id}
    | GenerateTrip(request: TripGenerateRequest) // POST /trips/generate
    | CreateTrip(data: TripCreate)               // POST /trips/
    | UpdateTrip(id: int, patch: TripUpdate)     // PUT /trips/{id}
    | DeleteTrip(id: int)                        // DELETE /trips/{id}

  /** A user profile as returned by /auth/register and /auth/me. */
  datatype User = User(
    id: int,
    email: string,
    username: string,
    fullName: Option<string>,
    isActive: bool,
    createdAt: string)

  /** Response of POST /auth/login. */
  datatype TokenResponse = TokenResponse(accessToken: string, tokenType: string)

  /** One call to the authentication endpoints. `GetCurrentUser` records the token
      the store held when it asked, which is the bearer credential of the request. */
  datatype AuthCall =
    | PostRegister(email: string, username: string, password: string, fullName: Option<string>)
    | PostLogin(username: string, password: string)
    | GetCurrentUser(bearer: string)
}
