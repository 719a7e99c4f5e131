/**
 * The JobApplication entity and the values a JSON request carries.
 *
 * A record is the Eloquent model's attribute bag: the fillable attributes
 * (`user_id`, `link`, `title`, `position`, `company`, `status`, `notes`)
 * as a map from attribute name to value, plus the server-managed id and a
 * creation tick standing in for `created_at`.
 */
module Model {

  datatype Option<T> = None | Some(value: T)

  /** A scalar JSON value as it reaches PHP from a request body. */
  datatype Value = Null | Str(s: string) | Num(n: int) | Bool(b: bool)

  /** A request body or a data array: a key that is absent is a missing field. */
  type Input = map<string, Value>

  datatype JobApplication = JobApplication(id: nat, created: nat, attrs: map<string, Value>)

  /** The mass-assignable attributes of the model. */
  const Fillable: set<string> := {"user_id", "link", "title", "position", "company", "status", "notes"}

  /** PHP's `! $v`: null, false, 0, "" and "0" are falsy. */
  predicate Falsy(v: Value) {
    v == Null || v == Bool(false) || v == Num(0) || v == Str("") || v == Str("0")
  }

  /** `$record->user_id === $id`: strict equality, so only an integer owner can match. */
  predicate OwnedBy(app: JobApplication, userId: int) {
    "user_id" in app.attrs && app.attrs["user_id"] == Num(userId)
  }

  /** The part of a data array that mass assignment accepts. */
  function FillableOf(data: Input): (taken: Input)
    ensures taken.Keys == data.Keys * Fillable
    ensures forall k :: k in taken ==> taken[k] == data[k]
  {
    map k | k in data && k in Fillable :: data[k]
  }

  /**
   * `fill($data)`: every fillable key of `data` overwrites the attribute of
   * the same name; every other attribute keeps its value; keys that are not
   * fillable are dropped.
   */
  function Fill(attrs: map<string, Value>, data: Input): (filled: map<string, Value>)
    ensures filled.Keys == attrs.Keys + (data.Keys * Fillable)
    ensures forall k :: k in data && k in Fillable ==> filled[k] == data[k]
    ensures forall k :: k in attrs && (k !in data || k !in Fillable) ==> filled[k] == attrs[k]
  {
    attrs + FillableOf(data)
  }

  /** Filling an empty record with data that is entirely fillable gives that data. */
  lemma FillEmpty(data: Input)
    requires data.Keys <= Fillable
    ensures Fill(map[], data) == data
  {
    assert Fill(map[], data).Keys == data.Keys;
  }

  /** Setting a key to the value it already has changes nothing. */
  lemma OverrideTwice(m: map<string, Value>, k: string, v: Value)
    ensures m[k := v][k := v] == m[k := v]
  {
  }

  /** Filling twice with the same data gives what filling once gives. */
  lemma FillIdempotent(attrs: map<string, Value>, data: Input)
    ensures Fill(Fill(attrs, data), data) == Fill(attrs, data)
  {
    var once := Fill(attrs, data);
    var twice := Fill(once, data);
    assert twice.Keys == once.Keys;
    forall k | k in twice ensures twice[k] == once[k] {
    }
  }
}
