/** The PDF part extractor of the Python parsing endpoint
    (api/parser.py, `_extract_pdf_from_multipart`), over bytes. */
module Multipart {
  import opened Wrappers
  import opened Text

  newtype byte = x: int | 0 <= x < 256

  type Bytes = seq<byte>

  /** The bytes of an ASCII text. */
  function Ascii(s: String): (r: Bytes)
    requires forall i :: 0 <= i < |s| ==> s[i] < 128 as char
    ensures |r| == |s|
  {
    seq(|s|, i requires 0 <= i < |s| => s[i] as int as byte)
  }

  const Filename: Bytes := Ascii("filename=")
  const PdfExtension: Bytes := Ascii(".pdf")
  /** `\r\n\r\n`, the end of a part's headers. */
  const HeaderEnd: Bytes := [13, 10, 13, 10]

  /** `f'--{boundary}'.encode()`, given the encoded boundary. */
  function Delimiter(boundary: Bytes): (r: Bytes)
    ensures |r| > 0
  {
    [45, 45] + boundary
  }

  /** A part holding a PDF file: it names a file, mentions ".pdf" and has
      the end of its headers. */
  predicate Usable(part: Bytes) {
    Contains(part, Filename) && Contains(part, PdfExtension) && IndexOf(part, HeaderEnd).Some?
  }

  /** The file data of a part: everything after the first `\r\n\r\n`,
      untrimmed. */
  function Payload(part: Bytes): (r: Bytes)
    requires IndexOf(part, HeaderEnd).Some?
    ensures EndsWith(part, r)
    ensures |r| == |part| - IndexOf(part, HeaderEnd).value - |HeaderEnd|
  {
    var i := IndexOf(part, HeaderEnd).value;
    part[i + |HeaderEnd|..]
  }

  /** The body is cut at every delimiter; joining the parts with it gives
      the body back. */
  lemma PartsJoin(data: Bytes, boundary: Bytes)
    ensures Join(SplitSeq(data, Delimiter(boundary)), Delimiter(boundary)) == data
  {
    SplitJoin(data, Delimiter(boundary));
  }

  /** Part `k` is the first usable one. */
  predicate FirstUsable(parts: seq<Bytes>, k: nat) {
    k < |parts| && Usable(parts[k]) && forall j :: 0 <= j < k ==> !Usable(parts[j])
  }

  /** `payload` is what part `k`, the first usable one, carries. */
  predicate PayloadOf(parts: seq<Bytes>, k: nat, payload: Bytes) {
    FirstUsable(parts, k) && payload == Payload(parts[k])
  }

  /** The loop of `_extract_pdf_from_multipart`: the payload of the first
      usable part; a part that names a PDF but has no header end is
      passed over; `None` when no part is usable. */
  method ExtractPdf(data: Bytes, boundary: Bytes) returns (r: Option<Bytes>)
    ensures var parts := SplitSeq(data, Delimiter(boundary));
      r.Some? ==> exists k: nat :: PayloadOf(parts, k, r.value)
    ensures var parts := SplitSeq(data, Delimiter(boundary));
      r.None? ==> forall k :: 0 <= k < |parts| ==> !Usable(parts[k])
  {
    var parts := SplitSeq(data, Delimiter(boundary));
    for i := 0 to |parts|
      invariant forall j :: 0 <= j < i ==> !Usable(parts[j])
    {
      var part := parts[i];
      if Contains(part, Filename) && Contains(part, PdfExtension) {
        var fileStart := IndexOf(part, HeaderEnd);
        if fileStart.Some? {
          r := Some(part[fileStart.value + 4..]);
          assert PayloadOf(parts, i, r.value);
          assert exists k: nat :: PayloadOf(parts, k, r.value);
          assert parts == SplitSeq(data, Delimiter(boundary));
          return;
        }
      }
    }
    return None;
  }

  /** A body without delimiter is one part. */
  lemma SinglePart(data: Bytes, boundary: Bytes)
    requires !Contains(data, Delimiter(boundary))
    ensures SplitSeq(data, Delimiter(boundary)) == [data]
  {
    var d := Delimiter(boundary);
    forall k | 0 <= k <= |data|
      ensures !OccursAt(data, d, k)
    {
      if OccursAt(data, d, k) {
        ContainsWitness(data, d, k);
      }
    }
    SplitWithoutSep(data, d);
  }
}
