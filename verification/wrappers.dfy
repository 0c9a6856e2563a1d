/** Failure-carrying result used by every parsing entry point: a construction
    either yields a complete value or fails as a whole (the library throws a
    single `SpotifyUriException`, so the failure carries no further detail). */
module Wrappers {

  datatype Option<+T> = None | Some(value: T)

}
