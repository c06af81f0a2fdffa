/** The small part of the Python runtime the pipeline relies on: exceptions
    (as an error value), the process environment, and two `str` operations. */
module Runtime {

  datatype Option<+T> = None | Some(value: T)

  /** The exceptions the modelled code raises or lets escape. */
  datatype Error =
    | ValueError(message: string)      // raised explicitly on a missing credential
    | KeyError(key: string)            // `d[key]` on a dict without that key
    | AttributeError(attribute: string) // attribute looked up on a value that lacks it
    | Other(name: string)              // any other exception, e.g. a timeout or a failed service call

  /** A Python call either returns a value or raises. */
  datatype Result<+T> = Ok(value: T) | Err(error: Error) {
    predicate IsFailure() { Err? }
    function PropagateFailure<U>(): Result<U> requires Err? { Err(error) }
    function Extract(): T requires Ok? { value }
  }

  /** The process environment, as `os.environ` sees it after `load_dotenv()`. */
  type Env = map<string, string>

  /** `os.getenv(name)`: the value, or `None` when the variable is unset. */
  function GetEnv(env: Env, name: string): Option<string>
  {
    if name in env then Some(env[name]) else None
  }

  /** `os.environ[name]`: the value, or `KeyError` when the variable is unset. */
  function Environ(env: Env, name: string): Result<string>
  {
    if name in env then Ok(env[name]) else Err(KeyError(name))
  }

  /** Python truthiness of an optional string: `None` and `""` are falsy. */
  predicate Truthy(v: Option<string>) {
    v.Some? && v.value != ""
  }

  /** `sub in s` for Python strings: `sub` occurs somewhere in `s`. */
  predicate Contains(s: string, sub: string)
    decreases |s|
  {
    sub <= s || (|s| > 0 && Contains(s[1..], sub))
  }

  /** Every character of a string that occurs in `s` is a character of `s`;
      so a string lacking some character of `sub` does not contain `sub`. */
  lemma {:induction false} ContainsKeepsChars(s: string, sub: string, c: char)
    requires Contains(s, sub) && c in sub
    ensures c in s
    decreases |s|
  {
    if sub <= s {
      var j :| 0 <= j < |sub| && sub[j] == c;
      assert s[j] == c;
    } else {
      ContainsKeepsChars(s[1..], sub, c);
      assert s[1..] <= s[1..] && c in s[1..];
    }
  }

  /** `str.isspace()` for one character: the Unicode code points Python
      treats as whitespace (separators, and bidirectional classes B, S, WS). */
  predicate IsSpace(c: char) {
    || ('\U{9}' <= c <= '\U{D}') || ('\U{1C}' <= c <= '\U{20}') || c == '\U{85}' || c == '\U{A0}'
    || c == '\U{1680}' || ('\U{2000}' <= c <= '\U{200A}') || c == '\U{2028}' || c == '\U{2029}'
    || c == '\U{202F}' || c == '\U{205F}' || c == '\U{3000}'
  }

  /** `s.lstrip()`. */
  function TrimStart(s: string): string
    decreases |s|
  {
    if |s| > 0 && IsSpace(s[0]) then TrimStart(s[1..]) else s
  }

  /** `s.rstrip()`. */
  function TrimEnd(s: string): string
    decreases |s|
  {
    if |s| > 0 && IsSpace(s[|s| - 1]) then TrimEnd(s[..|s| - 1]) else s
  }

  /** `s.strip()`: whitespace removed from both ends. */
  function Strip(s: string): string {
    TrimEnd(TrimStart(s))
  }

  predicate AllSpace(s: string) {
    forall j :: 0 <= j < |s| ==> IsSpace(s[j])
  }

  /** `s.lstrip()` is empty exactly when `s` is all whitespace, and otherwise
      starts with a non-whitespace character. */
  lemma {:induction false} TrimStartSpec(s: string)
    ensures TrimStart(s) == [] <==> AllSpace(s)
    ensures TrimStart(s) == [] || !IsSpace(TrimStart(s)[0])
    decreases |s|
  {
    if |s| > 0 && IsSpace(s[0]) {
      TrimStartSpec(s[1..]);
      assert AllSpace(s) <==> AllSpace(s[1..]) by {
        if AllSpace(s[1..]) {
          forall j | 0 <= j < |s| ensures IsSpace(s[j]) {
            if j > 0 { assert s[j] == s[1..][j - 1]; }
          }
        }
      }
    }
  }

  /** `s.rstrip()` is empty exactly when `s` is all whitespace. */
  lemma {:induction false} TrimEndSpec(s: string)
    ensures TrimEnd(s) == [] <==> AllSpace(s)
    decreases |s|
  {
    if |s| > 0 && IsSpace(s[|s| - 1]) {
      var t := s[..|s| - 1];
      TrimEndSpec(t);
      assert AllSpace(s) <==> AllSpace(t) by {
        if AllSpace(t) {
          forall j | 0 <= j < |s| ensures IsSpace(s[j]) {
            if j < |s| - 1 { assert s[j] == t[j]; }
          }
        }
      }
    }
  }

  /** `s.strip()` is empty exactly when every character of `s` is whitespace. */
  lemma StripEmptyIffAllSpace(s: string)
    ensures Strip(s) == [] <==> AllSpace(s)
  {
    TrimStartSpec(s);
    TrimEndSpec(TrimStart(s));
  }
}
