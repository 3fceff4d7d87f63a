/**
 * The values the store persists and the errors its operations reject with.
 */
module Values {

  /** The caller-chosen string a record is addressed by. */
  type Key = string

  /** A JSON document. Numbers are modelled as integers. */
  datatype Json =
    | JNull
    | JBool(b: bool)
    | JNum(n: int)
    | JStr(s: string)
    | JArray(items: seq<Json>)
    | JObject(members: seq<(string, Json)>)

  /** A JavaScript value as the store sees it: `undefined`, or a JSON document. */
  datatype Value = Undefined | Defined(json: Json)

  /** The reasons a promise returned by the store can reject. */
  datatype Error =
    | IoError                          // a file-system failure other than ENOENT
    | ParseError                       // the stored text does not parse
    | MkdirError                       // the persistence directory could not be created
    | ClosedError                      // the instance has been closed
    | UndefinedEditError               // an edit function returned undefined
    | EditFunctionError(reason: string) // the caller's edit function threw
    | InheritedKeyError                // a TypeError: the key names a member every plain object inherits

  /** The settled state of a promise: fulfilled with a value, or rejected. */
  datatype Result<T> = Ok(value: T) | Err(error: Error)

  datatype Option<T> = None | Some(value: T)
}
