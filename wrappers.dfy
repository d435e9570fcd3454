/** Failure-compatible result types shared by the parser, the DOS engine and
    the orchestrator, and the failures the Python code raises. */
module Wrappers {

  datatype Option<+T> = None | Some(value: T)

  /** Every way the modelled core can stop, named after what went wrong.
      The comment on each says which Python exception the source raises. */
  datatype Error =
    | MissingConfigFile   // ValueError('No MTL config file found.')
    | MissingGroupName    // IndexError: `line.split(' = ')[1]` on a GROUP line without ' = '
    | EmptyGroupStack     // IndexError: `del group_path[-1]` on an empty list
    | MalformedLine       // ValueError: `key, value = line.split(' = ')` not two parts
    | EmptyPath           // IndexError: `items[-1]` with no items
    | KeyNotFound(key: string)  // KeyError on a dict lookup
    | NotAMapping         // TypeError: a string indexed or assigned by a string key
    | NotANumber          // ValueError/TypeError from float()
    | ZeroDivision        // ZeroDivisionError on Python floats
    | EmptyBand           // ValueError: np.amin of a zero-size array
    | NonFinite           // numpy would produce inf or nan instead of a real number
    | NoDataset           // gdal.Open returned None; the next attribute access fails
    | UnsupportedTile     // tile prefix neither LC nor S2: `ref` is never bound

  datatype Result<+T> = Ok(value: T) | Err(error: Error) {
    predicate IsFailure() { Err? }
    function PropagateFailure<U>(): Result<U>
      requires Err?
    {
      Err(error)
    }
    function Extract(): T
      requires Ok?
    {
      value
    }
  }

  datatype Outcome = Pass | Fail(error: Error)
}
