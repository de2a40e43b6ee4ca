/** Request shaping (`_submit`): every request goes through one helper that
    turns off redirect following, appends an encoded query string when
    query data is given, and sends a POST with a form when form data is
    given (a GET otherwise). The transport that carries the request is not
    modelled. */
module Http {
  import opened JsValues

  const OnlineUrl: string := "https://online.kasikornbankgroup.com/K-Online/"
  const EbankUrl: string := "https://ebank.kasikornbankgroup.com/retail/"

  datatype HttpMethod = Get | Post

  /** A value placed in a form or a query: text, a number, or undefined. */
  datatype FormValue = Text(s: string) | Number(n: int) | Undefined

  /** An object literal used as form or query data, in key order. */
  type Fields = seq<(string, FormValue)>

  datatype Request = Request(url: string, verb: HttpMethod, form: Option<Fields>, followRedirects: bool)

  /** A property that may be missing, as a form value. */
  function ValueOf(v: Option<string>): FormValue {
    if v.Some? then Text(v.value) else Undefined
  }

  /** A value as the query-string encoder writes it (before escaping):
      numbers in decimal, undefined as nothing. */
  function Render(v: FormValue): string {
    match v
    case Text(s) => s
    case Number(n) => Decimal(n)
    case Undefined => ""
  }

  /** `key=value` pairs joined by `&`. */
  function EncodeQuery(q: Fields): string {
    if q == [] then ""
    else if |q| == 1 then q[0].0 + "=" + Render(q[0].1)
    else q[0].0 + "=" + Render(q[0].1) + "&" + EncodeQuery(q[1..])
  }

  /** A URL split at its first '?' into the address and the query. */
  function SplitQuery(url: string): (string, Option<string>) {
    if url == [] then ([], None)
    else if url[0] == '?' then ([], Some(url[1..]))
    else
      var (base, query) := SplitQuery(url[1..]);
      ([url[0]] + base, query)
  }

  /** The address and the query string of a request can be told apart
      again: appending `?` and a query to an address without `?` is undone
      by splitting at the first `?`, and an address alone splits into
      itself. */
  lemma {:induction false} SplitQueryRoundTrip(base: string, query: string)
    requires '?' !in base
    ensures SplitQuery(base + "?" + query) == (base, Some(query))
    ensures SplitQuery(base) == (base, None)
  {
    if base != [] {
      assert (base + "?" + query)[1..] == base[1..] + "?" + query;
      assert '?' !in base[1..] by {
        forall i | 0 <= i < |base[1..]| ensures base[1..][i] != '?' {
          assert base[1..][i] == base[i + 1];
        }
      }
      SplitQueryRoundTrip(base[1..], query);
      assert [base[0]] + base[1..] == base;
    } else {
      assert base + "?" + query == "?" + query;
    }
  }

  /** `_submit(url, getdata, data)`. Redirects are never followed; query
      data, when given, is appended to the address after a `?`; form data,
      when given, is copied key by key into the form of a POST. */
  method Submit(url: string, query: Option<Fields>, data: Option<Fields>) returns (req: Request)
    ensures !req.followRedirects
    ensures query.None? ==> req.url == url
    ensures query.Some? ==> req.url == url + "?" + EncodeQuery(query.value)
    ensures req.verb == Post <==> data.Some?
    ensures req.form == data
  {
    var target := url;
    if query.Some? {
      target := target + "?" + EncodeQuery(query.value);
    }
    var verb := Get;
    var form: Option<Fields> := None;
    if data.Some? {
      var fields: Fields := [];
      for i := 0 to |data.value|
        invariant fields == data.value[..i]
      {
        fields := fields + [data.value[i]];
      }
      assert data.value[..|data.value|] == data.value;
      verb := Post;
      form := Some(fields);
    }
    req := Request(target, verb, form, false);
  }
}
