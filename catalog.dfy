/** Values shared by both processing scripts: the JSON values a catalog entry
    holds, the entry itself (a Python dict, mutated in place and shared by
    reference), and the errors the pipeline raises. */
module Catalog {

  datatype Option<+T> = None | Some(value: T)

  /** A JSON value as `json.load` produces it; numbers (int or float) are reals. */
  datatype Value =
    | Null
    | Bool(b: bool)
    | Num(n: real)
    | Str(s: string)
    | Arr(items: seq<Value>)
    | Obj(members: map<string, Value>)

  /** The exceptions a single entry can raise while it is processed. */
  datatype Error =
    | TitleMissing      // ValueError: the title is absent or empty
    | TitleNotText      // AttributeError: the title value has no `lower()`
    | ListingFailed     // OSError from `os.listdir` on the music directory
    | NoCloseMatch      // FileNotFoundError: no audio name scores at least the cutoff
    | AudioFileMissing  // FileNotFoundError: `audio_file` unset, empty or absent on disk
    | AnalysisFailed    // any exception raised while librosa decodes or analyses the file

  /** Either a value or the exception that replaced it; usable with `:-`. */
  datatype Result<+T> = Ok(value: T) | Err(error: Error) {
    predicate IsFailure() { Err? }

    function PropagateFailure<U>(): Result<U>
      requires Err?
    {
      Err(error)
    }

    function Extract(): T
      requires Ok?
    {
      value
    }
  }

  /** The outcome of a call that returns nothing in Python but may raise. */
  datatype Outcome = Pass | Fail(error: Error)

  /** One catalog entry: a JSON object that the processor updates in place. */
  class MusicData {
    var fields: map<string, Value>

    constructor (fields: map<string, Value>)
      ensures this.fields == fields
    {
      this.fields := fields;
    }
  }
}
