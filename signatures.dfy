/** The parts of `save_signature_image` that are not image decoding: the
    removal of a data-URL header and the generated file name. */
module Signatures {
  import opened Strings

  /** Drops a `data:<mime>;base64,` header: with a comma in the payload the
      second comma-separated piece is kept, otherwise the payload is kept
      whole. */
  function StripDataUrlPrefix(payload: string): (data: string)
    ensures ',' !in payload ==> data == payload
    ensures ',' in payload ==> ',' !in data
    ensures ',' in payload ==>
              var rest := payload[IndexOf(payload, ',') + 1..];
              data == if ',' in rest then rest[..IndexOf(rest, ',')] else rest
  {
    if ',' in payload then
      SecondPiece(payload);
      Split(payload, ',')[1]
    else payload
  }

  /** The second piece of a split is what follows the first separator, up
      to the next one. */
  lemma SecondPiece(s: string)
    requires ',' in s
    ensures var rest := s[IndexOf(s, ',') + 1..];
            Split(s, ',')[1] == if ',' in rest then rest[..IndexOf(rest, ',')] else rest
  {
    var rest := s[IndexOf(s, ',') + 1..];
    assert Split(s, ',') == [s[..IndexOf(s, ',')]] + Split(rest, ',');
  }

  /** A data URL whose header and body hold no comma is reduced to its
      body. */
  lemma {:induction false} DataUrlRoundTrip(header: string, body: string)
    requires ',' !in header && ',' !in body
    ensures StripDataUrlPrefix(header + "," + body) == body
  {
    var url := header + "," + body;
    assert url[..|header|] == header;
    IndexOfFirst(url, ',', |header|);
    assert url[|header| + 1..] == body;
  }

  /** The stored reference of a saved image: `<kind>_<token>.png`, where the
      token is the random hex id drawn for it. */
  function SignatureFileName(kind: string, token: string): (name: string)
    ensures name != ""
    ensures StartsWith(name, kind + "_")
    ensures |name| >= 4 && name[|name| - 4..] == ".png"
    ensures |name| == |kind| + |token| + 5 && name[|kind| + 1..|name| - 4] == token
  {
    var name := kind + "_" + token + ".png";
    assert name[..|kind + "_"|] == kind + "_";
    name
  }

  /** For one kind of signature, different tokens give different file
      names, so a fresh token never overwrites another image. */
  lemma SignatureFileNameInjective(kind: string, token: string, token': string)
    requires SignatureFileName(kind, token) == SignatureFileName(kind, token')
    ensures token == token'
  {
    var name := SignatureFileName(kind, token);
    assert |token| == |token'|;
    assert token == name[|kind| + 1..|name| - 4] == token';
  }
}
