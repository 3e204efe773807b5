/**
 * Values shared by every part of the viewer model: optional and fallible
 * results, the outcome of a call into the browser or the DRM engine, bytes,
 * media tracks, and the few JavaScript string operations the viewer relies on
 * (`||` on strings, ASCII case folding, substring tests, decimal rendering).
 */
module Common {

  /** `undefined`/`null` versus a present value. */
  datatype Option<+T> = None | Some(value: T)

  /** A computation that either yields a value or throws an error. */
  datatype Result<+T, +E> = Success(value: T) | Failure(error: E)

  /** The outcome of a call into code this model treats as an oracle
      (a browser primitive or the DRM engine): it returns, or it throws an
      error whose `message` may be empty. */
  datatype Outcome = Ok | Throws(message: string)

  /** An element of a `Uint8Array`. */
  type Byte = x: int | 0 <= x < 256

  /** The kind of a received media track. */
  datatype Kind = Video | Audio

  /** A media track delivered by a track event; `id` is its identity. */
  datatype Track = Track(id: nat, kind: Kind)

  /** JavaScript `a || b` for strings: the empty string is falsy. */
  function OrElse(a: string, b: string): (r: string)
    ensures r == a || r == b
    ensures r == "" <==> a == "" && b == ""
  {
    if a != "" then a else b
  }

  function AsciiLowerChar(c: char): char
  {
    if 'A' <= c <= 'Z' then (c as int + 32) as char else c
  }

  /** `toLowerCase`, restricted to the ASCII letters: the only case mapping
      that matters when the result is compared with an ASCII word. */
  function AsciiLower(s: string): (r: string)
    ensures |r| == |s|
    ensures forall i :: 0 <= i < |s| ==> r[i] == AsciiLowerChar(s[i])
  {
    seq(|s|, i requires 0 <= i < |s| => AsciiLowerChar(s[i]))
  }

  /** `toUpperCase` on one character, as far as it can produce an ASCII
      letter: the ASCII letters, and the two non-ASCII letters whose upper
      case is a single ASCII letter (dotless i and long s). */
  function UpperChar(c: char): char
  {
    if 'a' <= c <= 'z' then (c as int - 32) as char
    else if c as int == 0x0131 then 'I'
    else if c as int == 0x017F then 'S'
    else c
  }

  function Upper(s: string): (r: string)
    ensures |r| == |s|
    ensures forall i :: 0 <= i < |s| ==> r[i] == UpperChar(s[i])
  {
    seq(|s|, i requires 0 <= i < |s| => UpperChar(s[i]))
  }

  predicate StartsWith(s: string, prefix: string)
  {
    |prefix| <= |s| && s[..|prefix|] == prefix
  }

  /** A case-insensitive regular-expression test such as `/android/i`
      for a lower-case ASCII word: some window of `s` folds to `word`. */
  predicate ContainsIgnoringCase(s: string, word: string)
  {
    exists k | 0 <= k <= |s| :: MatchesAt(s, k, word)
  }

  /** The window of `s` starting at `k` folds to `word`. */
  predicate MatchesAt(s: string, k: int, word: string)
  {
    0 <= k <= |s| - |word| && AsciiLower(s[k..k + |word|]) == word
  }

  lemma ContainsIgnoringCaseWitness(a: string, w: string, b: string, word: string)
    requires AsciiLower(w) == word
    ensures ContainsIgnoringCase(a + w + b, word)
  {
    var s := a + w + b;
    assert s[|a|..|a| + |w|] == w;
    assert MatchesAt(s, |a|, word);
  }

  /** `URLSearchParams.get(name)` over the decoded name/value pairs of a
      query string: the value of the first pair with that name. */
  function QueryGet(query: seq<(string, string)>, name: string): (r: Option<string>)
  {
    if query == [] then None
    else if query[0].0 == name then Some(query[0].1)
    else QueryGet(query[1..], name)
  }

  /** `QueryGet` finds a value exactly when some pair has the name, and then
      it is the value of the first such pair. */
  lemma {:induction false} QueryGetFirst(query: seq<(string, string)>, name: string)
    ensures QueryGet(query, name).None? <==> forall i :: 0 <= i < |query| ==> query[i].0 != name
    ensures QueryGet(query, name).Some? ==>
              exists i :: 0 <= i < |query| && query[i] == (name, QueryGet(query, name).value)
                && forall j :: 0 <= j < i ==> query[j].0 != name
  {
    if query != [] && query[0].0 != name {
      QueryGetFirst(query[1..], name);
      if QueryGet(query, name).Some? {
        var i :| 0 <= i < |query[1..]| && query[1..][i] == (name, QueryGet(query, name).value)
                 && forall j :: 0 <= j < i ==> query[1..][j].0 != name;
        assert query[i + 1] == (name, QueryGet(query, name).value);
        assert forall j :: 0 <= j < i + 1 ==> query[j].0 != name by {
          forall j | 0 <= j < i + 1
            ensures query[j].0 != name
          {
            if j > 0 { assert query[j] == query[1..][j - 1]; }
          }
        }
      } else {
        assert forall i :: 0 <= i < |query| ==> query[i].0 != name by {
          forall i | 0 <= i < |query|
            ensures query[i].0 != name
          {
            if i > 0 { assert query[i] == query[1..][i - 1]; }
          }
        }
      }
    } else if query != [] {
      assert query[0] == (name, QueryGet(query, name).value);
    }
  }

  function DigitChar(d: nat): char
    requires d < 10
  {
    "0123456789"[d]
  }

  /** `${n}` for a non-negative integer: its decimal digits, most significant first. */
  function Decimal(n: nat): (r: string)
    ensures 1 <= |r|
    ensures forall i :: 0 <= i < |r| ==> '0' <= r[i] <= '9'
  {
    if n < 10 then [DigitChar(n)] else Decimal(n / 10) + [DigitChar(n % 10)]
  }

  /** The value a string of decimal digits denotes. */
  function DecimalValue(s: string): nat
    requires forall i :: 0 <= i < |s| ==> '0' <= s[i] <= '9'
  {
    if s == [] then 0
    else 10 * DecimalValue(s[..|s| - 1]) + (s[|s| - 1] as int - '0' as int)
  }

  /** Rendering a number in decimal loses nothing: the digits denote it again. */
  lemma {:induction false} DecimalRoundTrip(n: nat)
    ensures DecimalValue(Decimal(n)) == n
  {
    var r := Decimal(n);
    if n < 10 {
      assert r[..|r| - 1] == [];
    } else {
      DecimalRoundTrip(n / 10);
      assert r[..|r| - 1] == Decimal(n / 10);
      assert r[|r| - 1] == DigitChar(n % 10);
    }
  }
}
