/**
 * dict.Dicter, the configuration reader the providers are handed.  Its
 * implementation is not part of this model, so each lookup is an arbitrary
 * total function: `str(key, default)` stands for `String(key, &default)`, `integer` for `Int`
 * (`None` for a nil default), `strSlice` for `StringSlice` and `mapSlice` for
 * `MapSlice`, the nested configurations under a key.
 */
module Dict {
  import opened Wrappers
  import opened Errors

  datatype Dicter = Dicter(
    str: (string, Option<string>) -> Result<string, Error>,
    integer: (string, Option<int>) -> Result<int, Error>,
    strSlice: string -> Result<seq<string>, Error>,
    mapSlice: string -> Result<seq<Dicter>, Error>)
}
