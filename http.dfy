/** What the two serverless endpoints read from a request: its method, the two proxy
    headers that carry the client address, and one field of its JSON body. */
module Http {
  import opened Strings

  /** A request header as the runtime hands it over: absent, one value, or several. */
  datatype Header = Absent | Text(value: string) | List(values: seq<string>)

  /** The one body field an endpoint reads (`password` or `message`). `NoBody` is a
      request whose body cannot be destructured, so reading the field throws the
      runtime's `TypeError` with message `error`; `NonString` is a field holding a number,
      boolean, object or null. */
  datatype BodyField = NoBody(error: string) | Missing | Str(s: string) | NonString

  datatype Request = Request(httpMethod: string, forwardedFor: Header, realIp: Header, field: BodyField)

  /** `getClientIP`: the first address of a single `x-forwarded-for` value, trimmed;
      otherwise a single `x-real-ip` value; otherwise `"unknown"`. */
  function ClientIp(forwardedFor: Header, realIp: Header): (ip: string)
    ensures forwardedFor.Text? ==>
              ip == Trim(UntilFirst(forwardedFor.value, ',')) && ',' !in ip && |ip| <= |forwardedFor.value|
    ensures !forwardedFor.Text? && realIp.Text? ==> ip == realIp.value
    ensures !forwardedFor.Text? && !realIp.Text? ==> ip == "unknown"
  {
    match forwardedFor
    case Text(f) =>
      var first := UntilFirst(f, ',');
      TrimIsInfix(first);
      Trim(first)
    case _ =>
      match realIp
      case Text(r) => r
      case _ => "unknown"
  }

  /** `trim` returns a contiguous piece of its input, so it adds no character. */
  lemma TrimIsInfix(s: string)
    ensures forall c :: c in Trim(s) ==> c in s
  {
    var k := TrimSlice(s);
    forall c | c in Trim(s) ensures c in s {
      var i :| 0 <= i < |Trim(s)| && Trim(s)[i] == c;
      assert Trim(s)[i] == s[k + i];
    }
  }

  /** A proxy chain `client, proxy1, proxy2` is attributed to its first hop. */
  lemma FirstHopWins(client: string, rest: string, realIp: Header)
    requires ',' !in client && Trimmed(client)
    ensures ClientIp(Text(client + "," + rest), realIp) == client
  {
    var f := client + "," + rest;
    assert f[..|client|] == client;
    assert f[|client|] == ',';
    var u := UntilFirst(f, ',');
    assert |u| <= |client|;
    assert u == client;
    TrimOfTrimmed(client);
  }
}
