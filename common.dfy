/** Shared value types: optional fields and the two outcomes of a request handler. */
module Common {

  /** A JSON field that may be absent (`undefined` / `null`). */
  datatype Option<T> = None | Some(value: T)

  /** Success carrying a value, or failure carrying an error. */
  datatype Result<T, E> = Ok(value: T) | Err(error: E)

  /** What an Express handler sends: a JSON body with a status, or an error status with a message. */
  datatype Response<T> = Json(status: int, body: T) | Error(status: int, error: string)

  /** JavaScript truthiness of an optional string: present and non-empty. */
  predicate Truthy(s: Option<string>)
  {
    s.Some? && s.value != ""
  }

  /** `s || ''`: the text when present, else the empty string. */
  function OrEmpty(s: Option<string>): (r: string)
    ensures Truthy(s) ==> r == s.value
    ensures !Truthy(s) ==> r == ""
  {
    if s.Some? then s.value else ""
  }

  /**
   * The characters JavaScript's `trim` and `parseInt` skip: the WhiteSpace
   * and LineTerminator code points of ECMA-262 (tab, vertical tab, form feed,
   * space, no-break space, the byte order mark, the other space separators of
   * Unicode category Zs, line feed, carriage return, and the line and
   * paragraph separators).
   */
  predicate IsSpace(c: char)
  {
    || c == '\t' || c == '\U{000B}' || c == '\U{000C}' || c == ' ' || c == '\U{00A0}' || c == '\U{FEFF}'
    || c == '\U{1680}' || ('\U{2000}' <= c <= '\U{200A}') || c == '\U{202F}' || c == '\U{205F}' || c == '\U{3000}'
    || c == '\n' || c == '\r' || c == '\U{2028}' || c == '\U{2029}'
  }

  /** The string without its leading white space. */
  function SkipSpaces(s: string): (r: string)
    ensures r == [] || !IsSpace(r[0])
  {
    if |s| == 0 || !IsSpace(s[0]) then s else SkipSpaces(s[1..])
  }

  /** Everything skipped is white space. */
  lemma {:induction false} SkipSpacesLeading(s: string)
    ensures |SkipSpaces(s)| <= |s|
    ensures forall k :: 0 <= k < |s| - |SkipSpaces(s)| ==> IsSpace(s[k])
  {
    if |s| > 0 && IsSpace(s[0]) {
      SkipSpacesLeading(s[1..]);
      assert forall k :: 1 <= k < |s| ==> s[k] == s[1..][k - 1];
    }
  }

  /** Skipping leading white space leaves a suffix of the input. */
  lemma {:induction false} SkipSpacesSuffix(s: string)
    ensures |SkipSpaces(s)| <= |s| && SkipSpaces(s) == s[|s| - |SkipSpaces(s)|..]
  {
    if |s| > 0 && IsSpace(s[0]) {
      SkipSpacesSuffix(s[1..]);
    }
  }
}
