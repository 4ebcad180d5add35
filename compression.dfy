/** The compression decision (main.go:132-139). */
module Compression {
  import opened Http

  /** The client listed the literal value `gzip` as one of its `Accept-Encoding`
      header values. Values are compared whole: no splitting at commas, no q-values. */
  predicate AcceptsGzip(acceptEncoding: seq<string>)
  {
    "gzip" in acceptEncoding
  }

  /** `canCompress`: scans the header values and stops at the first `gzip`. */
  method CanCompress(r: Request) returns (ok: bool)
    ensures ok <==> AcceptsGzip(r.acceptEncoding)
  {
    var values := r.acceptEncoding;
    var i := 0;
    while i < |values|
      invariant 0 <= i <= |values|
      invariant forall j :: 0 <= j < i ==> values[j] != "gzip"
    {
      if values[i] == "gzip" {
        return true;
      }
      i := i + 1;
    }
    return false;
  }

  /** A combined header line or one with parameters does not count as `gzip`. */
  lemma WholeValuesOnly()
    ensures !AcceptsGzip(["gzip, deflate, br"])
    ensures !AcceptsGzip(["gzip;q=1.0"])
    ensures !AcceptsGzip([" gzip"])
    ensures AcceptsGzip(["br", "gzip"])
    ensures !AcceptsGzip([])
  {
    assert ["br", "gzip"][1] == "gzip";
  }
}
