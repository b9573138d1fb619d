/**
 * The CloudEvents HTTP transport's Encoding: a 32-bit integer enumeration
 * of the ways an event can be put on the wire, with three names for each
 * value: a display string, the specification version it belongs to and a
 * codec name.
 */
module Encoding {

  /** Encoding is a 32-bit signed integer; every value of that range is a possible Encoding. */
  newtype Encoding = x: int | -0x8000_0000 <= x < 0x8000_0000

  // The constants, numbered from 0 in declaration order.
  const Default: Encoding := 0
  const BinaryV01: Encoding := 1
  const StructuredV01: Encoding := 2
  const BinaryV02: Encoding := 3
  const StructuredV02: Encoding := 4
  const BinaryV03: Encoding := 5
  const StructuredV03: Encoding := 6
  const BatchedV03: Encoding := 7
  const Unknown: Encoding := 8

  /** A value one of the eight named, known encodings has. */
  predicate Known(e: Encoding)
  {
    Default <= e <= BatchedV03
  }

  /** Version: the specification version an encoding belongs to. */
  function Version(e: Encoding): string
  {
    if e == Default then "Default"
    else if e == BinaryV01 || e == StructuredV01 then "v0.1"
    else if e == BinaryV02 || e == StructuredV02 then "v0.2"
    else if e == BinaryV03 || e == StructuredV03 || e == BatchedV03 then "v0.3"
    else "Unknown"
  }

  /** String: the encoding's family name, " Encoding " and its version. */
  function String(e: Encoding): string
  {
    if e == Default then "Default Encoding " + Version(e)
    else if e == BinaryV01 || e == BinaryV02 || e == BinaryV03 then "Binary Encoding " + Version(e)
    else if e == StructuredV01 || e == StructuredV02 || e == StructuredV03 then "Structured Encoding " + Version(e)
    else if e == BatchedV03 then "Batched Encoding " + Version(e)
    else "Unknown Encoding"
  }

  /** Codec, as the source writes it: BinaryV02 answers the codec name of BinaryV03. */
  function Codec(e: Encoding): string
  {
    if e == Default then "default"
    else if e == BinaryV01 then "binary/v0.1"
    else if e == StructuredV01 then "structured/v0.1"
    else if e == BinaryV02 then "binary/v0.3"
    else if e == StructuredV02 then "structured/v0.2"
    else if e == BinaryV03 then "binary/v0.3"
    else if e == StructuredV03 then "structured/v0.3"
    else if e == BatchedV03 then "batched/v0.3"
    else "unknown"
  }

  // ---------------------------------------------------------------------
  // A reference description of the known encodings
  // ---------------------------------------------------------------------

  datatype Family = DefaultFamily | Binary | Structured | Batched

  /** The family of a known non-Default encoding follows the declaration order's pattern. */
  function FamilyOf(e: Encoding): Family
    requires Known(e)
  {
    if e == 0 then DefaultFamily
    else if e == 7 then Batched
    else if e % 2 == 1 then Binary
    else Structured
  }

  /** The minor specification version (0.1, 0.2, 0.3) of a known non-Default encoding. */
  function MinorOf(e: Encoding): int
    requires Known(e) && e != Default
  {
    if e == 7 then 3 else (e as int + 1) / 2
  }

  function FamilyTitle(f: Family): string
  {
    match f
    case DefaultFamily => "Default"
    case Binary => "Binary"
    case Structured => "Structured"
    case Batched => "Batched"
  }

  function FamilyCodec(f: Family): string
  {
    match f
    case DefaultFamily => "default"
    case Binary => "binary"
    case Structured => "structured"
    case Batched => "batched"
  }

  function MinorName(m: int): string
  {
    if m == 1 then "v0.1" else if m == 2 then "v0.2" else if m == 3 then "v0.3" else "Unknown"
  }

  /** The declared constants are the consecutive integers 0 to 8. */
  lemma ConstantsAreConsecutive()
    ensures [Default, BinaryV01, StructuredV01, BinaryV02, StructuredV02,
             BinaryV03, StructuredV03, BatchedV03, Unknown] == [0, 1, 2, 3, 4, 5, 6, 7, 8]
    ensures !Known(Unknown)
  {
  }

  /** Version is "Default" for Default and the reference minor version for the others. */
  lemma VersionMatchesReference(e: Encoding)
    requires Known(e)
    ensures Version(e) == if e == Default then "Default" else MinorName(MinorOf(e))
  {
  }

  /** String is the family's title, " Encoding " and the version. */
  lemma StringIsFamilyAndVersion(e: Encoding)
    requires Known(e)
    ensures String(e) == FamilyTitle(FamilyOf(e)) + " Encoding " + Version(e)
  {
    var family := FamilyTitle(FamilyOf(e));
    if e == Default {
      assert family + " Encoding " == "Default Encoding ";
    } else if e == BatchedV03 {
      assert family + " Encoding " == "Batched Encoding ";
    } else if e % 2 == 1 {
      assert family + " Encoding " == "Binary Encoding ";
    } else {
      assert family + " Encoding " == "Structured Encoding ";
    }
  }

  /** Outside 0..7 (Unknown and the negatives included) all three names are the unknown ones. */
  lemma UnknownValues(e: Encoding)
    requires !Known(e)
    ensures String(e) == "Unknown Encoding" && Version(e) == "Unknown" && Codec(e) == "unknown"
  {
  }

  /** Every known non-Default encoding but BinaryV02 has codec family "/" version. */
  lemma CodecIsFamilyAndVersion(e: Encoding)
    requires Known(e) && e != Default && e != BinaryV02
    ensures Codec(e) == FamilyCodec(FamilyOf(e)) + "/" + Version(e)
  {
    if e <= StructuredV01 {
    } else if e <= StructuredV02 {
    } else {
    }
  }

  /** The display strings of the known encodings are pairwise distinct. */
  lemma StringInjective(a: Encoding, b: Encoding)
    requires Known(a) && Known(b) && a != b
    ensures String(a) != String(b)
  {
    StringMarks(a);
    StringMarks(b);
  }

  /** The second and the last letter of a known encoding's display string, which set it apart. */
  lemma StringMarks(e: Encoding)
    requires Known(e)
    ensures |String(e)| > 1
    ensures String(e)[1] == ['e', 'i', 't', 'i', 't', 'i', 't', 'a'][e]
    ensures String(e)[|String(e)| - 1] == ['t', '1', '1', '2', '2', '3', '3', '3'][e]
  {
  }

  // ---------------------------------------------------------------------
  // The BinaryV02 codec
  // ---------------------------------------------------------------------

  /** As written, BinaryV02 and BinaryV03 share a codec name although their versions differ. */
  lemma CodecCollision()
    ensures Codec(BinaryV02) == Codec(BinaryV03) == "binary/v0.3"
    ensures Version(BinaryV02) != Version(BinaryV03)
    ensures Codec(BinaryV02) != FamilyCodec(FamilyOf(BinaryV02)) + "/" + Version(BinaryV02)
  {
    var patterned := FamilyCodec(FamilyOf(BinaryV02)) + "/" + Version(BinaryV02);
    assert patterned == "binary/v0.2";
    assert patterned[10] != Codec(BinaryV02)[10];
  }

  /** The codec name with BinaryV02 following the pattern of the others. */
  function CodecIntended(e: Encoding): string
  {
    if e == BinaryV02 then "binary/v0.2" else Codec(e)
  }

  /** The intended codec names follow family "/" version for every known non-Default encoding. */
  lemma CodecIntendedIsFamilyAndVersion(e: Encoding)
    requires Known(e) && e != Default
    ensures CodecIntended(e) == FamilyCodec(FamilyOf(e)) + "/" + Version(e)
  {
    if e != BinaryV02 {
      CodecIsFamilyAndVersion(e);
    }
  }

  /** The intended codec names tell the known encodings apart. */
  lemma CodecIntendedInjective(a: Encoding, b: Encoding)
    requires Known(a) && Known(b) && a != b
    ensures CodecIntended(a) != CodecIntended(b)
  {
  }
}
