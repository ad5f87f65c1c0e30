/** Small datatypes shared by every module of the model. */
module Common {

  datatype Option<+T> = None | Some(value: T)

  /** The store's two sentinel errors, and any database error (the transaction rolls back). */
  datatype Error = NotFound | Conflict | DbError

  datatype Result<+T> = Ok(value: T) | Err(error: Error)

  /** Instants and durations, in nanoseconds. */
  type Time = int

  function Max(a: int, b: int): int { if a < b then b else a }

  /** A row id in the text form the database hands out: 36 characters. */
  type Uuid = s: string | |s| == 36 witness seq(36, _ => '0')

  /** An ASCII letter in lower case. */
  function Lower(c: char): char { if 'A' <= c <= 'Z' then c + 32 as char else c }

  /** The scoring of a challenge that is given none. */
  const DefaultScoring := "{\"type\":\"static\",\"points\":100}"

  lemma {:induction false} SubsetSize<T>(a: set<T>, b: set<T>)
    requires a <= b
    ensures |a| <= |b| && (|a| == |b| ==> a == b)
  {
    if a != {} {
      var x :| x in a;
      SubsetSize(a - {x}, b - {x});
    } else {
      assert b != {} ==> |b| > 0;
    }
  }
}
