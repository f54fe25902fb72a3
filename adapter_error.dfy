/** The unified adapter error of ports/adapter_error.py: a code, a message
    and optional details, with its string form. */
module AdapterErrors {
  import opened Results
  import opened Strings

  /** Details as the adapters pass them: a dict of string keys and values,
      kept in insertion order. */
  type Details = seq<(string, string)>

  datatype AdapterError = AdapterError(code: string, message: string, details: Option<Details>)

  /** Python truthiness of the details field: `None` and an empty dict are
      falsy. */
  predicate HasDetails(e: AdapterError) {
    e.details.Some? && |e.details.value| > 0
  }

  function EntriesRepr(d: Details): string {
    if d == [] then ""
    else Repr(d[0].0) + ": " + Repr(d[0].1) + (if |d| == 1 then "" else ", " + EntriesRepr(d[1..]))
  }

  /** `str(dict)`: `{'k': 'v', ...}`. */
  function DetailsRepr(d: Details): string {
    "{" + EntriesRepr(d) + "}"
  }

  /** `AdapterError.__str__`. */
  function ToString(e: AdapterError): (r: string)
    ensures var head := "[" + e.code + "] " + e.message; |head| <= |r| && r[..|head|] == head
    ensures HasDetails(e) <==> |r| > |"[" + e.code + "] " + e.message|
  {
    var head := "[" + e.code + "] " + e.message;
    if HasDetails(e) then head + " (details: " + DetailsRepr(e.details.value) + ")" else head
  }

  /** An error without truthy details, including one built with the
      default `details=None`, prints in the short form. */
  lemma ShortForm(code: string, message: string, details: Option<Details>)
    requires details.None? || details == Some([])
    ensures ToString(AdapterError(code, message, details)) == "[" + code + "] " + message
  {
  }

  /** With truthy details the short form is followed by the details. */
  lemma LongForm(e: AdapterError)
    requires HasDetails(e)
    ensures ToString(e) == "[" + e.code + "] " + e.message + " (details: " + DetailsRepr(e.details.value) + ")"
    ensures ToString(e)[|ToString(e)| - 1] == ')'
  {
  }

  /** The code between the leading `[` and the first `]`. */
  function CodeOf(s: string): (r: Option<string>)
    ensures r.Some? ==> ']' !in r.value
  {
    if |s| > 0 && s[0] == '[' then UpTo(s[1..], ']') else None
  }

  function UpTo(s: string, stop: char): (r: Option<string>)
    ensures r.Some? ==> stop !in r.value && |r.value| < |s| && s[..|r.value|] == r.value && s[|r.value|] == stop
  {
    if s == [] then None
    else if s[0] == stop then Some("")
    else match UpTo(s[1..], stop)
      case None => None
      case Some(t) => Some([s[0]] + t)
  }

  lemma {:induction false} UpToPrefix(a: string, stop: char, rest: string)
    requires stop !in a
    ensures UpTo(a + [stop] + rest, stop) == Some(a)
  {
    if a != [] {
      assert (a + [stop] + rest)[1..] == a[1..] + [stop] + rest;
      UpToPrefix(a[1..], stop, rest);
      assert a == [a[0]] + a[1..];
    }
  }

  /** The string form keeps the code recoverable: reading back the bracketed
      prefix gives the code, whatever the message and details. */
  lemma CodeRoundTrip(e: AdapterError)
    requires ']' !in e.code
    ensures CodeOf(ToString(e)) == Some(e.code)
  {
    var s := ToString(e);
    var rest := if HasDetails(e) then " " + e.message + " (details: " + DetailsRepr(e.details.value) + ")"
                else " " + e.message;
    assert s == "[" + (e.code + "]" + rest);
    assert s[1..] == e.code + [']'] + rest;
    UpToPrefix(e.code, ']', rest);
  }
}
