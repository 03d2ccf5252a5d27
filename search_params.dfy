/** The browser's `URLSearchParams` as the REST hooks use it: a list of name/value pairs grown
    by `append` and serialized as application/x-www-form-urlencoded. */
module UrlSearchParams {
  import opened Text

  type Pair = (string, string)

  function EncodePair(p: Pair): (r: string) {
    FormEncode(p.0) + "=" + FormEncode(p.1)
  }

  /** `params.toString()`: the encoded pairs joined by "&". */
  function Serialize(pairs: seq<Pair>): (r: string)
    ensures pairs == [] <==> r == ""
  {
    if pairs == [] then ""
    else if |pairs| == 1 then EncodePair(pairs[0])
    else EncodePair(pairs[0]) + "&" + Serialize(pairs[1..])
  }

  function Occurrences(s: string, c: char): (n: nat)
    ensures n <= |s|
  {
    if s == [] then 0 else (if s[0] == c then 1 else 0) + Occurrences(s[1..], c)
  }

  lemma {:induction false} OccurrencesConcat(a: string, b: string, c: char)
    ensures Occurrences(a + b, c) == Occurrences(a, c) + Occurrences(b, c)
  {
    if a == [] {
      assert a + b == b;
    } else {
      assert (a + b)[1..] == a[1..] + b;
      OccurrencesConcat(a[1..], b, c);
    }
  }

  lemma {:induction false} EncodedHasNo(s: string, c: char)
    requires !EncodedChar(c)
    ensures Occurrences(FormEncode(s), c) == 0
  {
    var e := FormEncode(s);
    var k := 0;
    while k < |e|
      invariant k <= |e|
      invariant Occurrences(e[..k], c) == 0
    {
      assert e[..k + 1] == e[..k] + [e[k]];
      OccurrencesConcat(e[..k], [e[k]], c);
      assert e[k] != c;
      k := k + 1;
    }
    assert e[..|e|] == e;
  }

  /** No name or value can inject a separator: the serialization of `n` pairs has exactly
      `n - 1` "&" separators and `n` "=" signs, whatever the pairs hold. */
  lemma {:induction false} SerializeSeparators(pairs: seq<Pair>)
    requires pairs != []
    ensures Occurrences(Serialize(pairs), '&') == |pairs| - 1
    ensures Occurrences(Serialize(pairs), '=') == |pairs|
  {
    var p := pairs[0];
    EncodedHasNo(p.0, '&');
    EncodedHasNo(p.1, '&');
    EncodedHasNo(p.0, '=');
    EncodedHasNo(p.1, '=');
    OccurrencesConcat(FormEncode(p.0), "=", '&');
    OccurrencesConcat(FormEncode(p.0) + "=", FormEncode(p.1), '&');
    OccurrencesConcat(FormEncode(p.0), "=", '=');
    OccurrencesConcat(FormEncode(p.0) + "=", FormEncode(p.1), '=');
    if |pairs| > 1 {
      SerializeSeparators(pairs[1..]);
      OccurrencesConcat(EncodePair(p), "&", '&');
      OccurrencesConcat(EncodePair(p) + "&", Serialize(pairs[1..]), '&');
      OccurrencesConcat(EncodePair(p), "&", '=');
      OccurrencesConcat(EncodePair(p) + "&", Serialize(pairs[1..]), '=');
    }
  }

  class SearchParams {
    var pairs: seq<Pair>

    constructor ()
      ensures pairs == []
    {
      pairs := [];
    }

    method Append(name: string, value: string)
      modifies this
      ensures pairs == old(pairs) + [(name, value)]
    {
      pairs := pairs + [(name, value)];
    }

    function ToString(): (r: string)
      reads this
      ensures r == Serialize(pairs)
    {
      Serialize(pairs)
    }
  }
}
