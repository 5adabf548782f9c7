/** Values shared by every module of the model: optional values (JavaScript's
    null/undefined), the outcome of a call into a provider that may throw, the
    session user and its profile row, guard decisions, and the two JavaScript
    fallback operators on strings. */
module Common {

  /** `None` stands for JavaScript's null / undefined. */
  datatype Option<+T> = None | Some(value: T) {
    /** JavaScript's `x ?? d`: only a missing value falls back. */
    function GetOr(d: T): T {
      match this
      case Some(v) => v
      case None => d
    }
  }

  /** The outcome of an awaited call into code that is not modelled: it either
      throws (carrying the error's `message`, if any) or returns a value. */
  datatype Call<+T> = Threw(message: Option<string>) | Returned(value: T)

  /** The authenticated user handle returned by the auth provider. */
  datatype User = User(id: string, email: Option<string>)

  /** A row of the `users` table as selected with `.select('role')`. */
  datatype Profile = Profile(role: Option<string>)

  /** A page guard's decision: render the protected content or redirect. */
  datatype Access = Allow | Redirect(target: string)

  /** JavaScript truthiness of an optional string: null, undefined and "" are falsy. */
  predicate Truthy(s: Option<string>) {
    s.Some? && s.value != ""
  }

  /** JavaScript's `s || d` on an optional string. */
  function Or(s: Option<string>, d: string): (r: string)
    ensures Truthy(s) ==> r == s.value
    ensures !Truthy(s) ==> r == d
  {
    if Truthy(s) then s.value else d
  }

  /** The first truthy candidate, or the default: a chain of `||`. */
  function FirstTruthy(candidates: seq<Option<string>>, default: string): (r: string)
    ensures forall i :: 0 <= i < |candidates| ==>
      (Truthy(candidates[i]) && forall j :: 0 <= j < i ==> !Truthy(candidates[j])) ==> r == candidates[i].value
    ensures (forall i :: 0 <= i < |candidates| ==> !Truthy(candidates[i])) ==> r == default
    decreases |candidates|
  {
    if candidates == [] then default
    else if Truthy(candidates[0]) then candidates[0].value
    else
      var r := FirstTruthy(candidates[1..], default);
      assert forall i :: 1 <= i < |candidates| ==> candidates[i] == candidates[1..][i - 1];
      r
  }

  /** JavaScript's `s.startsWith(p)`. */
  predicate StartsWith(s: string, p: string) {
    |p| <= |s| && s[..|p|] == p
  }

  function Min(a: int, b: int): int {
    if a <= b then a else b
  }
}
