/**
 * The signature predicates that the classification tree consults.
 *
 * Each node of the tree names one predicate of the external matcher catalog
 * (the Go package internal/matchers). Their byte-level bodies are not part of
 * this model: a caller supplies them as a Catalog, a total function from a
 * signature and a buffer to a verdict. The one predicate the tree itself
 * relies on is True, which passes for every buffer (tree.go:5, tree.go:8).
 */
module Matchers {

  /** One byte of the inspected input. */
  type byte = b: int | 0 <= b < 256

  /** The bytes handed to detection, already read into memory. */
  type Buffer = seq<byte>

  /** The names of the matcher predicates, one per node of the tree. */
  datatype Sig =
      True | SevenZ | Zip | Xlsx | Docx | Pptx | Epub | Jar
    | Odt | Ott | Ods | Ots | Odp | Otp | Odg | Otg
    | Odf | Pdf | Ole | Xls | Pub | Ppt | Doc | Ps
    | Psd | Ogg | OggAudio | OggVideo | Png | Jpg | Jp2 | Jpx
    | Jpm | Gif | Webp | Exe | Elf | ElfObj | ElfExe | ElfLib
    | ElfDump | Ar | Deb | Tar | Xar | Bz2 | Fits | Tiff
    | Bmp | Ico | Mp3 | Flac | Midi | Ape | MusePack | Amr
    | Wav | Aiff | Au | Mpeg | QuickTime | Mqv | Mp4 | WebM
    | ThreeGP | ThreeG2 | Avi | Flv | Mkv | Asf | Aac | Voc
    | AMp4 | M4a | Txt | Html | Svg | Xml | Rss | Atom
    | X3d | Kml | Xliff | Collada | Gml | Gpx | Tcx | Amf
    | Threemf | Php | Js | Lua | Perl | Python | Json | GeoJson
    | NdJson | Rtf | Tcl | Csv | Tsv | VCard | ICalendar | Warc
    | Gzip | Class | Swf | Crx | Woff | Woff2 | Otf | Eot
    | Wasm | Shx | Shp | Dbf | Dcm | Rar | DjVu | Mobi
    | Lit | Bpg | Sqlite | Dwg | Nes | MachO | Qcp | Icns
    | Heic | HeicSequence | Heif | HeifSequence | Marc | MsAccessMdb | MsAccessAce | Zstd

  /** The external predicates: for each signature, whether it accepts a buffer. */
  type Catalog = (Sig, Buffer) -> bool

  /**
   * Whether the predicate named by sig passes on buf. True passes for any
   * buffer, the empty one included; every other verdict is the catalog's.
   */
  predicate Matches(cat: Catalog, sig: Sig, buf: Buffer)
  {
    sig.True? || cat(sig, buf)
  }

  /**
   * The rule Matches follows: True passes for every buffer, the empty one
   * included, and any other signature passes exactly when the catalog's
   * predicate accepts the buffer.
   */
  lemma MatchesRule(cat: Catalog, sig: Sig, buf: Buffer)
    ensures sig == True ==> Matches(cat, sig, buf)
    ensures sig != True ==> (Matches(cat, sig, buf) <==> cat(sig, buf))
  {
  }
}
