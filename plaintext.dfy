/** The plain-text filter applied to uploaded content and the UTF-8 byte
    order mark framing of the uploaded file (`ensurePlainText`,
    `addUTF8BOM`, api/main.go:949-975). */
module PlainText {
  import opened Outcomes
  import opened Text

  /** Code points kept by the filter: printable ASCII, the basic CJK
      ideographs U+4E00-U+9FA5, CJK punctuation U+3000-U+303F, LF and CR. */
  predicate Allowed(c: char) {
    (32 <= c as int <= 126) ||
    (0x4E00 <= c as int <= 0x9FA5) ||
    (0x3000 <= c as int <= 0x303F) ||
    c == '\n' || c == '\r'
  }

  /** The kept code points that take three UTF-8 bytes. */
  predicate Cjk(c: char) {
    (0x4E00 <= c as int <= 0x9FA5) || (0x3000 <= c as int <= 0x303F)
  }

  /** One code point through the filter. */
  function PlainChar(c: char): char {
    if Allowed(c) then c else ' '
  }

  /** The filtered text. */
  function Filtered(s: string): string
    decreases |s|
  {
    if s == [] then [] else [PlainChar(s[0])] + Filtered(s[1..])
  }

  /** Every code point of the filtered text is allowed. */
  predicate IsPlain(s: string) {
    forall i :: 0 <= i < |s| ==> Allowed(s[i])
  }

  /** The filter maps each code point to exactly one code point. */
  lemma {:induction false} FilteredAt(s: string)
    ensures |Filtered(s)| == |s|
    ensures forall i :: 0 <= i < |s| ==> Filtered(s)[i] == PlainChar(s[i])
    decreases |s|
  {
    if s != [] {
      FilteredAt(s[1..]);
      assert forall i :: 1 <= i < |s| ==> s[i] == s[1..][i - 1];
    }
  }

  /** `ensurePlainText`: a builder loop writing each code point or a space. */
  method EnsurePlainText(s: string) returns (r: string)
    ensures r == Filtered(s)
    ensures |r| == |s|
    ensures forall i :: 0 <= i < |s| ==> r[i] == (if Allowed(s[i]) then s[i] else ' ')
  {
    r := "";
    for i := 0 to |s|
      invariant |r| == i
      invariant forall k :: 0 <= k < i ==> r[k] == PlainChar(s[k])
    {
      if Allowed(s[i]) {
        r := r + [s[i]];
      } else {
        r := r + [' '];
      }
    }
    FilteredAt(s);
  }

  /** The filter only outputs allowed code points. */
  lemma FilteredIsPlain(s: string)
    ensures IsPlain(Filtered(s))
  {
    FilteredAt(s);
  }

  /** The filter is the identity on text that is already plain. */
  lemma FilteredIdentity(s: string)
    requires IsPlain(s)
    ensures Filtered(s) == s
  {
    FilteredAt(s);
  }

  /** Filtering twice is filtering once. */
  lemma FilteredIdempotent(s: string)
    ensures Filtered(Filtered(s)) == Filtered(s)
  {
    FilteredIsPlain(s);
    FilteredIdentity(Filtered(s));
  }

  /** The UTF-8 byte order mark. */
  const Bom: seq<Byte> := [0xEF, 0xBB, 0xBF]

  /** `addUTF8BOM`: the byte order mark followed by the UTF-8 of the
      filtered text: the bytes written to the temporary upload file. */
  function AddUtf8Bom(content: string): (r: seq<Byte>)
    ensures |r| >= 3 && r[..3] == Bom
  {
    Bom + Utf8Encode(Filtered(content))
  }

  /** Code points of `s` that the filter keeps as three-byte CJK. */
  function CjkCount(s: string): nat
    decreases |s|
  {
    if s == [] then 0 else (if Cjk(s[0]) then 1 else 0) + CjkCount(s[1..])
  }

  /** Size of the uploaded file: 3 bytes of BOM, one byte per code point
      that becomes ASCII (kept or replaced by a space) and three per kept
      CJK code point. */
  lemma {:induction false} AddUtf8BomLength(content: string)
    ensures |AddUtf8Bom(content)| == 3 + |content| + 2 * CjkCount(content)
  {
    EncodeLength(Filtered(content));
    FilteredLength(content);
  }

  lemma {:induction false} FilteredLength(s: string)
    ensures Utf8Length(Filtered(s)) == |s| + 2 * CjkCount(s)
    decreases |s|
  {
    if s != [] {
      FilteredLength(s[1..]);
      var f := Filtered(s);
      assert f[0] == PlainChar(s[0]) && f[1..] == Filtered(s[1..]);
    }
  }

  /** Reading the file back: the byte order mark, then UTF-8. */
  function ReadBomFile(bytes: seq<Byte>): Option<string> {
    if |bytes| >= 3 && bytes[..3] == Bom then Utf8Decode(bytes[3..]) else None
  }

  /** The uploaded file decodes back to exactly the filtered text. */
  lemma ReadAfterAddUtf8Bom(content: string)
    ensures ReadBomFile(AddUtf8Bom(content)) == Some(Filtered(content))
  {
    var bytes := AddUtf8Bom(content);
    assert bytes[3..] == Utf8Encode(Filtered(content));
    DecodeEncode(Filtered(content));
  }
}
