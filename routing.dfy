/** Navigation requests, what a guarded screen renders, and the paths the screens link to. */
module Routing {

  /** A call `route(path, replace)`: `replace` is true for a history replace, false for a push. */
  datatype Navigation = Navigation(path: string, replace: bool)

  /** What a screen renders: the loading spinner, its children, or nothing. */
  datatype View = Spinner | Children | Nothing

  /** The authenticated landing page. */
  const HomePath: string := "/"
  /** The sign-in page. */
  const AuthPath: string := "/auth"
  /** Where the identity provider sends the browser back after OAuth sign-in. */
  const CallbackPath: string := "/auth/callback"

  /** The detail screen of one trip. */
  function TripPath(tripId: string): string {
    "/trip/" + tripId
  }

  /** The full itinerary of one trip. */
  function ItineraryPath(tripId: string): string {
    "/trip/itinerary/" + tripId
  }
}
