/** Small shared vocabulary of the page models: optional values and what a
    `catch (err)` block receives. */
module Common {

  datatype Option<+T> = None | Some(value: T)

  /** The value a `catch (err)` clause receives: an `Error` object with its
      `message`, or some other thrown value. */
  datatype Thrown = ErrorObject(message: string) | OtherValue

  /** No two elements of `s` have the same key. */
  ghost predicate DistinctBy<T, K>(s: seq<T>, key: T -> K) {
    forall i, j :: 0 <= i < j < |s| ==> key(s[i]) != key(s[j])
  }

  /** A sequence has distinct keys exactly when its first key does not occur
      again and the rest has distinct keys. */
  lemma ConsDistinctBy<T, K>(x: T, s: seq<T>, key: T -> K)
    ensures DistinctBy([x] + s, key) <==> (forall y :: y in s ==> key(y) != key(x)) && DistinctBy(s, key)
  {
    var r := [x] + s;
    if (forall y :: y in s ==> key(y) != key(x)) && DistinctBy(s, key) {
      forall i, j | 0 <= i < j < |r| ensures key(r[i]) != key(r[j]) {
        assert r[j] == s[j - 1] && r[j] in s;
        if i > 0 { assert r[i] == s[i - 1]; }
      }
    }
    if DistinctBy(r, key) {
      forall y | y in s ensures key(y) != key(x) {
        var k :| 0 <= k < |s| && s[k] == y;
        assert r[0] == x && r[k + 1] == y;
      }
      forall i, j | 0 <= i < j < |s| ensures key(s[i]) != key(s[j]) {
        assert s[i] == r[i + 1] && s[j] == r[j + 1];
      }
    }
  }

  /** `err instanceof Error ? err.message : fallback`, the message every page
      shows for a caught failure. */
  function ErrorText(err: Thrown, fallback: string): (text: string)
    ensures err.ErrorObject? ==> text == err.message
    ensures err.OtherValue? ==> text == fallback
    ensures (err.ErrorObject? ==> err.message != "") && fallback != "" ==> text != ""
  {
    match err
    case ErrorObject(m) => m
    case OtherValue => fallback
  }
}
