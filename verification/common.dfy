/**
 * Shared vocabulary of the console: optional values, the values a JSON
 * payload carries, HTTP requests, and the decimal rendering of record ids
 * that the pages interpolate into request paths.
 */
module Common {

  datatype Option<T> = None | Some(value: T)

  /** Database ids of fetched records. JavaScript treats the id 0 as false. */
  type Id = nat

  /**
   * A value inside a JSON payload. `Num(text)` stands for the number that
   * `parseFloat(text)` yields; its numeric value is not modelled.
   */
  datatype Value = Str(s: string) | Num(text: string) | Null

  datatype Verb = GET | POST | PUT | DELETE

  /** A request the console sends; `path` is relative to the API origin. */
  datatype Request = Request(verb: Verb, path: string, body: Option<map<string, Value>>)

  /** JavaScript's `x || fallback` over a text field that may be absent. */
  function OrDefault(x: Option<string>, fallback: string): string
  {
    if x.Some? && x.value != "" then x.value else fallback
  }

  predicate IsDigit(c: char)
  {
    '0' <= c <= '9'
  }

  function DigitChar(d: nat): (c: char)
    requires d < 10
    ensures IsDigit(c) && c as int - '0' as int == d
  {
    ('0' as int + d) as char
  }

  /** The decimal text of an id, as a template literal `${id}` renders it. */
  function IdText(n: Id): (s: string)
    ensures |s| >= 1
    ensures forall i :: 0 <= i < |s| ==> IsDigit(s[i])
    ensures s[0] == '0' ==> n == 0
    decreases n
  {
    if n < 10 then [DigitChar(n)] else IdText(n / 10) + [DigitChar(n % 10)]
  }

  /** Reads a run of decimal digits back as a number. */
  function ParseDigits(s: string): nat
    requires forall i :: 0 <= i < |s| ==> IsDigit(s[i])
  {
    if s == [] then 0
    else
      assert IsDigit(s[|s| - 1]);
      ParseDigits(s[..|s| - 1]) * 10 + (s[|s| - 1] as int - '0' as int)
  }

  /** Rendering an id and reading it back gives the id again. */
  lemma {:induction false} ParseIdText(n: Id)
    ensures ParseDigits(IdText(n)) == n
    decreases n
  {
    if n >= 10 {
      var s := IdText(n);
      assert s[..|s| - 1] == IdText(n / 10);
      ParseIdText(n / 10);
    }
  }

  /** Distinct ids render as distinct texts, so a path names exactly one record. */
  lemma IdTextInjective(a: Id, b: Id)
    requires IdText(a) == IdText(b)
    ensures a == b
  {
    ParseIdText(a);
    ParseIdText(b);
  }
}
