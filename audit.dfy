/**
 * A check of the configured tree, node by node, from which its global shape
 * follows: every signature occurs once (so every node but the root sits in
 * exactly one child list), no alias string is attached to two nodes, and no
 * node lies more than three levels below the root.
 *
 * The check also ties each node's canonical type to its signature, which
 * shows, case by case, that no canonical type is another node's alias except
 * audio/x-m4a.
 *
 * The check is driven by two certificates written out below: a table giving
 * each signature its preorder position and the canonical type of its node,
 * and an index from each declared alias to the signature of the node that
 * declares it. A certificate that disagreed with the tree would make the
 * check fail, so they add nothing to what is trusted.
 */
module Audit {
  import opened Wrappers
  import opened Matchers
  import opened Nodes
  import opened Tree

  /**
   * The table certificate: for each signature, its position in a preorder
   * listing of the tree and the canonical type of the node carrying it.
   */
  function Entry(s: Sig): (nat, string)
  {
    match s
    case True => (0, "application/octet-stream")
    case SevenZ => (1, "application/x-7z-compressed")
    case Zip => (2, "application/zip")
    case Xlsx => (3, "application/vnd.openxmlformats-officedocument.spreadsheetml.sheet")
    case Docx => (4, "application/vnd.openxmlformats-officedocument.wordprocessingml.document")
    case Pptx => (5, "application/vnd.openxmlformats-officedocument.presentationml.presentation")
    case Epub => (6, "application/epub+zip")
    case Jar => (7, "application/jar")
    case Odt => (8, "application/vnd.oasis.opendocument.text")
    case Ott => (9, "application/vnd.oasis.opendocument.text-template")
    case Ods => (10, "application/vnd.oasis.opendocument.spreadsheet")
    case Ots => (11, "application/vnd.oasis.opendocument.spreadsheet-template")
    case Odp => (12, "application/vnd.oasis.opendocument.presentation")
    case Otp => (13, "application/vnd.oasis.opendocument.presentation-template")
    case Odg => (14, "application/vnd.oasis.opendocument.graphics")
    case Otg => (15, "application/vnd.oasis.opendocument.graphics-template")
    case Odf => (16, "application/vnd.oasis.opendocument.formula")
    case Pdf => (17, "application/pdf")
    case Ole => (18, "application/x-ole-storage")
    case Xls => (19, "application/vnd.ms-excel")
    case Pub => (20, "application/vnd.ms-publisher")
    case Ppt => (21, "application/vnd.ms-powerpoint")
    case Doc => (22, "application/msword")
    case Ps => (23, "application/postscript")
    case Psd => (24, "image/vnd.adobe.photoshop")
    case Ogg => (25, "application/ogg")
    case OggAudio => (26, "audio/ogg")
    case OggVideo => (27, "video/ogg")
    case Png => (28, "image/png")
    case Jpg => (29, "image/jpeg")
    case Jp2 => (30, "image/jp2")
    case Jpx => (31, "image/jpx")
    case Jpm => (32, "image/jpm")
    case Gif => (33, "image/gif")
    case Webp => (34, "image/webp")
    case Exe => (35, "application/vnd.microsoft.portable-executable")
    case Elf => (36, "application/x-elf")
    case ElfObj => (37, "application/x-object")
    case ElfExe => (38, "application/x-executable")
    case ElfLib => (39, "application/x-sharedlib")
    case ElfDump => (40, "application/x-coredump")
    case Ar => (41, "application/x-archive")
    case Deb => (42, "application/vnd.debian.binary-package")
    case Tar => (43, "application/x-tar")
    case Xar => (44, "application/x-xar")
    case Bz2 => (45, "application/x-bzip2")
    case Fits => (46, "application/fits")
    case Tiff => (47, "image/tiff")
    case Bmp => (48, "image/bmp")
    case Ico => (49, "image/x-icon")
    case Mp3 => (50, "audio/mpeg")
    case Flac => (51, "audio/flac")
    case Midi => (52, "audio/midi")
    case Ape => (53, "audio/ape")
    case MusePack => (54, "audio/musepack")
    case Amr => (55, "audio/amr")
    case Wav => (56, "audio/wav")
    case Aiff => (57, "audio/aiff")
    case Au => (58, "audio/basic")
    case Mpeg => (59, "video/mpeg")
    case QuickTime => (60, "video/quicktime")
    case Mqv => (61, "video/quicktime")
    case Mp4 => (62, "video/mp4")
    case WebM => (63, "video/webm")
    case ThreeGP => (64, "video/3gpp")
    case ThreeG2 => (65, "video/3gpp2")
    case Avi => (66, "video/x-msvideo")
    case Flv => (67, "video/x-flv")
    case Mkv => (68, "video/x-matroska")
    case Asf => (69, "video/x-ms-asf")
    case Aac => (70, "audio/aac")
    case Voc => (71, "audio/x-unknown")
    case AMp4 => (72, "audio/mp4")
    case M4a => (73, "audio/x-m4a")
    case Txt => (74, "text/plain")
    case Html => (75, "text/html; charset=utf-8")
    case Svg => (76, "image/svg+xml")
    case Xml => (77, "text/xml; charset=utf-8")
    case Rss => (78, "application/rss+xml")
    case Atom => (79, "application/atom+xml")
    case X3d => (80, "model/x3d+xml")
    case Kml => (81, "application/vnd.google-earth.kml+xml")
    case Xliff => (82, "application/x-xliff+xml")
    case Collada => (83, "model/vnd.collada+xml")
    case Gml => (84, "application/gml+xml")
    case Gpx => (85, "application/gpx+xml")
    case Tcx => (86, "application/vnd.garmin.tcx+xml")
    case Amf => (87, "application/x-amf")
    case Threemf => (88, "application/vnd.ms-package.3dmanufacturing-3dmodel+xml")
    case Php => (89, "text/x-php; charset=utf-8")
    case Js => (90, "application/javascript")
    case Lua => (91, "text/x-lua")
    case Perl => (92, "text/x-perl")
    case Python => (93, "application/x-python")
    case Json => (94, "application/json")
    case GeoJson => (95, "application/geo+json")
    case NdJson => (96, "application/x-ndjson")
    case Rtf => (97, "text/rtf")
    case Tcl => (98, "text/x-tcl")
    case Csv => (99, "text/csv")
    case Tsv => (100, "text/tab-separated-values")
    case VCard => (101, "text/vcard")
    case ICalendar => (102, "text/calendar")
    case Warc => (103, "application/warc")
    case Gzip => (104, "application/gzip")
    case Class => (105, "application/x-java-applet; charset=binary")
    case Swf => (106, "application/x-shockwave-flash")
    case Crx => (107, "application/x-chrome-extension")
    case Woff => (108, "font/woff")
    case Woff2 => (109, "font/woff2")
    case Otf => (110, "font/otf")
    case Eot => (111, "application/vnd.ms-fontobject")
    case Wasm => (112, "application/wasm")
    case Shx => (113, "application/octet-stream")
    case Shp => (114, "application/octet-stream")
    case Dbf => (115, "application/x-dbf")
    case Dcm => (116, "application/dicom")
    case Rar => (117, "application/x-rar-compressed")
    case DjVu => (118, "image/vnd.djvu")
    case Mobi => (119, "application/x-mobipocket-ebook")
    case Lit => (120, "application/x-ms-reader")
    case Bpg => (121, "image/bpg")
    case Sqlite => (122, "application/x-sqlite3")
    case Dwg => (123, "image/vnd.dwg")
    case Nes => (124, "application/vnd.nintendo.snes.rom")
    case MachO => (125, "application/x-mach-binary")
    case Qcp => (126, "audio/qcelp")
    case Icns => (127, "image/x-icns")
    case Heic => (128, "image/heic")
    case HeicSequence => (129, "image/heic-sequence")
    case Heif => (130, "image/heif")
    case HeifSequence => (131, "image/heif-sequence")
    case Marc => (132, "application/marc")
    case MsAccessMdb => (133, "application/x-msaccess")
    case MsAccessAce => (134, "application/x-msaccess")
    case Zstd => (135, "application/zstd")
  }

  /** The position of each signature in a preorder listing of the tree. */
  function Ordinal(s: Sig): nat
  {
    Entry(s).0
  }

  /**
   * The alias index: for every alias string attached in tree.go, the
   * signature of the node it is attached to.
   */
  function AliasIndex(a: string): Option<Sig>
  {
    if |a| == 8 then
      if a[7] == 's' then
        if a == "text/rss" then Some(Rss) else None
      else None
    else if |a| == 9 then
      if a[8] == '2' then
        if a[7] == 'g' then
          if a == "video/3g2" then Some(ThreeG2) else None
        else None
      else if a[8] == '3' then
        if a == "audio/mp3" then Some(Mp3) else None
      else if a[8] == 'd' then
        if a == "audio/mid" then Some(Midi) else None
      else if a[8] == 'f' then
        if a[7] == 's' then
          if a == "video/asf" then Some(Asf) else None
        else None
      else if a[8] == 'i' then
        if a == "video/avi" then Some(Avi) else None
      else if a[8] == 'm' then
        if a[4] == 'o' then
          if a == "video/jpm" then Some(Jpm) else None
        else None
      else if a[8] == 'p' then
        if a[7] == 'g' then
          if a == "video/3gp" then Some(ThreeGP) else None
        else None
      else None
    else if |a| == 10 then
      if a[9] == 'e' then
        if a == "audio/wave" then Some(Wav) else None
      else if a[9] == 'm' then
        if a[3] == 'i' then
          if a == "audio/webm" then Some(WebM) else None
        else None
      else if a[9] == 'p' then
        if a[3] == 'i' then
          if a == "audio/3gpp" then Some(ThreeGP) else None
        else None
      else None
    else if |a| == 11 then
      if a[9] == '4' then
        if a == "audio/x-m4a" then Some(AMp4) else None
      else if a[9] == 'a' then
        if a == "audio/x-wav" then Some(Wav) else None
      else if a[9] == 'i' then
        if a[10] == 'd' then
          if a == "audio/x-mid" then Some(Midi) else None
        else None
      else if a[9] == 'm' then
        if a == "image/x-bmp" then Some(Bmp) else None
      else if a[9] == 'p' then
        if a[3] == 'i' then
          if a == "audio/3gpp2" then Some(ThreeG2) else None
        else None
      else if a[9] == 's' then
        if a == "image/x-psd" then Some(Psd) else None
      else if a[9] == 'w' then
        if a[7] == '-' then
          if a == "image/x-dwg" then Some(Dwg) else None
        else if a[7] == '/' then
          if a == "drawing/dwg" then Some(Dwg) else None
        else None
      else None
    else if |a| == 12 then
      if a[11] == 'a' then
        if a == "audio/x-mp4a" then Some(AMp4) else None
      else if a[11] == 'b' then
        if a == "audio/amr-nb" then Some(Amr) else None
      else if a[11] == 'g' then
        if a == "audio/x-mpeg" then Some(Mp3) else None
      else if a[11] == 'i' then
        if a == "audio/x-midi" then Some(Midi) else None
      else None
    else if |a| == 13 then
      if a[7] == 'c' then
        if a == "gzip/document" then Some(Gzip) else None
      else if a[7] == 'p' then
        if a == "audio/sp-midi" then Some(Midi) else None
      else if a[7] == 's' then
        if a == "video/msvideo" then Some(Avi) else None
      else None
    else if |a| == 14 then
      if a[13] == 'e' then
        if a == "audio/vnd.wave" then Some(Wav) else None
      else if a[13] == 'p' then
        if a == "image/x-ms-bmp" then Some(Bmp) else None
      else if a[13] == 'v' then
        if a == "video/x-ms-wmv" then Some(Asf) else None
      else None
    else if |a| == 15 then
      if a[14] == 'g' then
        if a[13] == 'w' then
          if a == "application/dwg" then Some(Dwg) else None
        else None
      else if a[14] == 't' then
        if a == "text/javascript" then Some(Js) else None
      else None
    else if |a| == 16 then
      if a[12] == 'a' then
        if a == "application/acad" then Some(Dwg) else None
      else None
    else if |a| == 17 then
      if a[14] == 'd' then
        if a[16] == 'g' then
          if a == "application/x-dwg" then Some(Dwg) else None
        else None
      else if a[14] == 'o' then
        if a == "application/x-ogg" then Some(Ogg) else None
      else if a[14] == 'p' then
        if a == "application/x-pdf" then Some(Pdf) else None
      else if a[14] == 'r' then
        if a == "application/x-rar" then Some(Rar) else None
      else if a[14] == 't' then
        if a[16] == 'l' then
          if a == "application/x-tcl" then Some(Tcl) else None
        else None
      else if a[14] == 'z' then
        if a == "application/x-zip" then Some(Zip) else None
      else None
    else if |a| == 18 then
      if a[16] == 'a' then
        if a == "application/x-acad" then Some(Dwg) else None
      else if a[16] == 'i' then
        if a == "application/x-gzip" then Some(Gzip) else None
      else None
    else if |a| == 19 then
      if a[14] == 'e' then
        if a == "application/msexcel" then Some(Xls) else None
      else if a[14] == 'i' then
        if a == "application/gzipped" then Some(Gzip) else None
      else None
    else if |a| == 20 then
      if a[15] == 'u' then
        if a == "application/x-gunzip" then Some(Gzip) else None
      else None
    else if |a| == 21 then
      if a[20] == 'd' then
        if a == "application/x-autocad" then Some(Dwg) else None
      else if a[20] == 'p' then
        if a == "application/photoshop" then Some(Psd) else None
      else None
    else if |a| == 23 then
      if a[22] == 'd' then
        if a == "application/vnd.ms-word" then Some(Doc) else None
      else if a[22] == 'g' then
        if a == "application/autocad_dwg" then Some(Dwg) else None
      else None
    else if |a| == 24 then
      if a[22] == 'n' then
        if a == "application/mspowerpoint" then Some(Ppt) else None
      else if a[22] == 'p' then
        if a == "application/x-javascript" then Some(Js) else None
      else None
    else if |a| == 26 then
      if a == "application/x-unix-archive" then Some(Ar) else None
    else if |a| == 27 then
      if a[15] == 'p' then
        if a == "application/gzip-compressed" then Some(Gzip) else None
      else None
    else if |a| == 28 then
      if a[16] == 'p' then
        if a == "application/x-zip-compressed" then Some(Zip) else None
      else None
    else if |a| == 29 then
      if a[27] == 'e' then
        if a == "application/x-gzip-compressed" then Some(Gzip) else None
      else None
    else if |a| == 41 then
      if a[40] == 't' then
        if a == "application/x-vnd.oasis.opendocument.text" then Some(Odt) else None
      else None
    else if |a| == 44 then
      if a == "application/x-vnd.oasis.opendocument.formula" then Some(Odf) else None
    else if |a| == 45 then
      if a[44] == 's' then
        if a == "application/x-vnd.oasis.opendocument.graphics" then Some(Odg) else None
      else None
    else if |a| == 48 then
      if a[47] == 't' then
        if a == "application/x-vnd.oasis.opendocument.spreadsheet" then Some(Ods) else None
      else None
    else if |a| == 49 then
      if a == "application/x-vnd.oasis.opendocument.presentation" then Some(Odp) else None
    else if |a| == 50 then
      if a == "application/x-vnd.oasis.opendocument.text-template" then Some(Ott) else None
    else if |a| == 54 then
      if a[53] == 'e' then
        if a == "application/x-vnd.oasis.opendocument.graphics-template" then Some(Otg) else None
      else None
    else if |a| == 57 then
      if a == "application/x-vnd.oasis.opendocument.spreadsheet-template" then Some(Ots) else None
    else if |a| == 58 then
      if a == "application/x-vnd.oasis.opendocument.presentation-template" then Some(Otp) else None
    else None
  }

  /** The index records every alias of n against n. */
  ghost predicate AliasesIndexed(n: Node)
  {
    forall a | a in n.aliases :: AliasIndex(a) == Some(n.sig)
  }

  /** The canonical type of the node carrying each signature. */
  function MimeOf(s: Sig): string
  {
    Entry(s).1
  }

  /**
   * The canonical type of n is nobody's alias, with one exception recorded in
   * tree.go: audio/x-m4a is the canonical type of m4a and an alias of aMp4.
   */
  ghost predicate MimeUnclaimed(n: Node)
  {
    AliasIndex(n.mime).None? || n.sig == M4a
  }

  /**
   * No canonical type in the table is indexed as an alias, m4a's excepted;
   * audio/x-m4a is indexed against aMp4.
   */
  lemma MimesUnclaimed(s: Sig)
    ensures AliasIndex(MimeOf(s)).None? || s == M4a
    ensures s == M4a ==> AliasIndex(MimeOf(s)) == Some(AMp4)
  {
    if s in {True, SevenZ, Zip, Xlsx, Docx, Pptx, Epub, Jar, Odt, Ott, Ods, Ots, Odp, Otp, Odg, Otg, Odf, Pdf, Ole, Xls, Pub, Ppt, Doc, Ps, Psd, Ogg, OggAudio, OggVideo, Png, Jpg, Jp2, Jpx, Jpm, Gif, Webp, Exe} {
      MimesUnclaimedPart0(s);
    } else if s in {Elf, ElfObj, ElfExe, ElfLib, ElfDump, Ar, Deb, Tar, Xar, Bz2, Fits, Tiff, Bmp, Ico, Mp3, Flac, Midi, Ape, MusePack, Amr, Wav, Aiff, Au, Mpeg, QuickTime, Mqv, Mp4, WebM, ThreeGP, ThreeG2, Avi, Flv, Mkv, Asf, Aac, Voc} {
      MimesUnclaimedPart1(s);
    } else if s in {AMp4, M4a, Txt, Html, Svg, Xml, Rss, Atom, X3d, Kml, Xliff, Collada, Gml, Gpx, Tcx, Amf, Threemf, Php, Js, Lua, Perl, Python, Json, GeoJson, NdJson, Rtf, Tcl, Csv, Tsv, VCard, ICalendar, Warc, Gzip, Class, Swf, Crx} {
      MimesUnclaimedPart2(s);
    } else {
      MimesUnclaimedPart3(s);
    }
  }

  // The case split behind MimesUnclaimed, nine signatures at a time.

  lemma MimesUnclaimed0(s: Sig)
    requires s in {True, SevenZ, Zip, Xlsx, Docx, Pptx, Epub, Jar, Odt}
    ensures AliasIndex(MimeOf(s)).None? || s == M4a
    ensures s == M4a ==> AliasIndex(MimeOf(s)) == Some(AMp4)
  {
    match s
      case True => RootUnclaimed();
      case SevenZ => SevenZUnclaimed();
      case Zip => ZipUnclaimed();
      case Xlsx => XlsxUnclaimed();
      case Docx => DocxUnclaimed();
      case Pptx => PptxUnclaimed();
      case Epub => EpubUnclaimed();
      case Jar => JarUnclaimed();
      case Odt => OdtUnclaimed();
      case _ => assert false;
  }

  lemma MimesUnclaimed1(s: Sig)
    requires s in {Ott, Ods, Ots, Odp, Otp, Odg, Otg, Odf, Pdf}
    ensures AliasIndex(MimeOf(s)).None? || s == M4a
    ensures s == M4a ==> AliasIndex(MimeOf(s)) == Some(AMp4)
  {
    match s
      case Ott => OttUnclaimed();
      case Ods => OdsUnclaimed();
      case Ots => OtsUnclaimed();
      case Odp => OdpUnclaimed();
      case Otp => OtpUnclaimed();
      case Odg => OdgUnclaimed();
      case Otg => OtgUnclaimed();
      case Odf => OdfUnclaimed();
      case Pdf => PdfUnclaimed();
      case _ => assert false;
  }

  lemma MimesUnclaimed2(s: Sig)
    requires s in {Ole, Xls, Pub, Ppt, Doc, Ps, Psd, Ogg, OggAudio}
    ensures AliasIndex(MimeOf(s)).None? || s == M4a
    ensures s == M4a ==> AliasIndex(MimeOf(s)) == Some(AMp4)
  {
    match s
      case Ole => OleUnclaimed();
      case Xls => XlsUnclaimed();
      case Pub => PubUnclaimed();
      case Ppt => PptUnclaimed();
      case Doc => DocUnclaimed();
      case Ps => PsUnclaimed();
      case Psd => PsdUnclaimed();
      case Ogg => OggUnclaimed();
      case OggAudio => OggAudioUnclaimed();
      case _ => assert false;
  }

  lemma MimesUnclaimed3(s: Sig)
    requires s in {OggVideo, Png, Jpg, Jp2, Jpx, Jpm, Gif, Webp, Exe}
    ensures AliasIndex(MimeOf(s)).None? || s == M4a
    ensures s == M4a ==> AliasIndex(MimeOf(s)) == Some(AMp4)
  {
    match s
      case OggVideo => OggVideoUnclaimed();
      case Png => PngUnclaimed();
      case Jpg => JpgUnclaimed();
      case Jp2 => Jp2Unclaimed();
      case Jpx => JpxUnclaimed();
      case Jpm => JpmUnclaimed();
      case Gif => GifUnclaimed();
      case Webp => WebpUnclaimed();
      case Exe => ExeUnclaimed();
      case _ => assert false;
  }

  lemma MimesUnclaimed4(s: Sig)
    requires s in {Elf, ElfObj, ElfExe, ElfLib, ElfDump, Ar, Deb, Tar, Xar}
    ensures AliasIndex(MimeOf(s)).None? || s == M4a
    ensures s == M4a ==> AliasIndex(MimeOf(s)) == Some(AMp4)
  {
    match s
      case Elf => ElfUnclaimed();
      case ElfObj => ElfObjUnclaimed();
      case ElfExe => ElfExeUnclaimed();
      case ElfLib => ElfLibUnclaimed();
      case ElfDump => ElfDumpUnclaimed();
      case Ar => ArUnclaimed();
      case Deb => DebUnclaimed();
      case Tar => TarUnclaimed();
      case Xar => XarUnclaimed();
      case _ => assert false;
  }

  lemma MimesUnclaimed5(s: Sig)
    requires s in {Bz2, Fits, Tiff, Bmp, Ico, Mp3, Flac, Midi, Ape}
    ensures AliasIndex(MimeOf(s)).None? || s == M4a
    ensures s == M4a ==> AliasIndex(MimeOf(s)) == Some(AMp4)
  {
    match s
      case Bz2 => Bz2Unclaimed();
      case Fits => FitsUnclaimed();
      case Tiff => TiffUnclaimed();
      case Bmp => BmpUnclaimed();
      case Ico => IcoUnclaimed();
      case Mp3 => Mp3Unclaimed();
      case Flac => FlacUnclaimed();
      case Midi => MidiUnclaimed();
      case Ape => ApeUnclaimed();
      case _ => assert false;
  }

  lemma MimesUnclaimed6(s: Sig)
    requires s in {MusePack, Amr, Wav, Aiff, Au, Mpeg, QuickTime, Mqv, Mp4}
    ensures AliasIndex(MimeOf(s)).None? || s == M4a
    ensures s == M4a ==> AliasIndex(MimeOf(s)) == Some(AMp4)
  {
    match s
      case MusePack => MusePackUnclaimed();
      case Amr => AmrUnclaimed();
      case Wav => WavUnclaimed();
      case Aiff => AiffUnclaimed();
      case Au => AuUnclaimed();
      case Mpeg => MpegUnclaimed();
      case QuickTime => QuickTimeUnclaimed();
      case Mqv => MqvUnclaimed();
      case Mp4 => Mp4Unclaimed();
      case _ => assert false;
  }

  lemma MimesUnclaimed7(s: Sig)
    requires s in {WebM, ThreeGP, ThreeG2, Avi, Flv, Mkv, Asf, Aac, Voc}
    ensures AliasIndex(MimeOf(s)).None? || s == M4a
    ensures s == M4a ==> AliasIndex(MimeOf(s)) == Some(AMp4)
  {
    match s
      case WebM => WebMUnclaimed();
      case ThreeGP => ThreeGPUnclaimed();
      case ThreeG2 => ThreeG2Unclaimed();
      case Avi => AviUnclaimed();
      case Flv => FlvUnclaimed();
      case Mkv => MkvUnclaimed();
      case Asf => AsfUnclaimed();
      case Aac => AacUnclaimed();
      case Voc => VocUnclaimed();
      case _ => assert false;
  }

  lemma MimesUnclaimed8(s: Sig)
    requires s in {AMp4, M4a, Txt, Html, Svg, Xml, Rss, Atom, X3d}
    ensures AliasIndex(MimeOf(s)).None? || s == M4a
    ensures s == M4a ==> AliasIndex(MimeOf(s)) == Some(AMp4)
  {
    match s
      case AMp4 => AMp4Unclaimed();
      case M4a => M4aUnclaimed();
      case Txt => TxtUnclaimed();
      case Html => HtmlUnclaimed();
      case Svg => SvgUnclaimed();
      case Xml => XmlUnclaimed();
      case Rss => RssUnclaimed();
      case Atom => AtomUnclaimed();
      case X3d => X3dUnclaimed();
      case _ => assert false;
  }

  lemma MimesUnclaimed9(s: Sig)
    requires s in {Kml, Xliff, Collada, Gml, Gpx, Tcx, Amf, Threemf, Php}
    ensures AliasIndex(MimeOf(s)).None? || s == M4a
    ensures s == M4a ==> AliasIndex(MimeOf(s)) == Some(AMp4)
  {
    match s
      case Kml => KmlUnclaimed();
      case Xliff => XliffUnclaimed();
      case Collada => ColladaUnclaimed();
      case Gml => GmlUnclaimed();
      case Gpx => GpxUnclaimed();
      case Tcx => TcxUnclaimed();
      case Amf => AmfUnclaimed();
      case Threemf => ThreemfUnclaimed();
      case Php => PhpUnclaimed();
      case _ => assert false;
  }

  lemma MimesUnclaimed10(s: Sig)
    requires s in {Js, Lua, Perl, Python, Json, GeoJson, NdJson, Rtf, Tcl}
    ensures AliasIndex(MimeOf(s)).None? || s == M4a
    ensures s == M4a ==> AliasIndex(MimeOf(s)) == Some(AMp4)
  {
    match s
      case Js => JsUnclaimed();
      case Lua => LuaUnclaimed();
      case Perl => PerlUnclaimed();
      case Python => PythonUnclaimed();
      case Json => JsonUnclaimed();
      case GeoJson => GeoJsonUnclaimed();
      case NdJson => NdJsonUnclaimed();
      case Rtf => RtfUnclaimed();
      case Tcl => TclUnclaimed();
      case _ => assert false;
  }

  lemma MimesUnclaimed11(s: Sig)
    requires s in {Csv, Tsv, VCard, ICalendar, Warc, Gzip, Class, Swf, Crx}
    ensures AliasIndex(MimeOf(s)).None? || s == M4a
    ensures s == M4a ==> AliasIndex(MimeOf(s)) == Some(AMp4)
  {
    match s
      case Csv => CsvUnclaimed();
      case Tsv => TsvUnclaimed();
      case VCard => VCardUnclaimed();
      case ICalendar => ICalendarUnclaimed();
      case Warc => WarcUnclaimed();
      case Gzip => GzipUnclaimed();
      case Class => ClassFileUnclaimed();
      case Swf => SwfUnclaimed();
      case Crx => CrxUnclaimed();
      case _ => assert false;
  }

  lemma MimesUnclaimed12(s: Sig)
    requires s in {Woff, Woff2, Otf, Eot, Wasm, Shx, Shp, Dbf, Dcm}
    ensures AliasIndex(MimeOf(s)).None? || s == M4a
    ensures s == M4a ==> AliasIndex(MimeOf(s)) == Some(AMp4)
  {
    match s
      case Woff => WoffUnclaimed();
      case Woff2 => Woff2Unclaimed();
      case Otf => OtfUnclaimed();
      case Eot => EotUnclaimed();
      case Wasm => WasmUnclaimed();
      case Shx => ShxUnclaimed();
      case Shp => ShpUnclaimed();
      case Dbf => DbfUnclaimed();
      case Dcm => DcmUnclaimed();
      case _ => assert false;
  }

  lemma MimesUnclaimed13(s: Sig)
    requires s in {Rar, DjVu, Mobi, Lit, Bpg, Sqlite, Dwg, Nes, MachO}
    ensures AliasIndex(MimeOf(s)).None? || s == M4a
    ensures s == M4a ==> AliasIndex(MimeOf(s)) == Some(AMp4)
  {
    match s
      case Rar => RarUnclaimed();
      case DjVu => DjvuUnclaimed();
      case Mobi => MobiUnclaimed();
      case Lit => LitUnclaimed();
      case Bpg => BpgUnclaimed();
      case Sqlite => Sqlite3Unclaimed();
      case Dwg => DwgUnclaimed();
      case Nes => NesUnclaimed();
      case MachO => MachoUnclaimed();
      case _ => assert false;
  }

  lemma MimesUnclaimed14(s: Sig)
    requires s in {Qcp, Icns, Heic, HeicSequence, Heif, HeifSequence, Marc, MsAccessMdb, MsAccessAce}
    ensures AliasIndex(MimeOf(s)).None? || s == M4a
    ensures s == M4a ==> AliasIndex(MimeOf(s)) == Some(AMp4)
  {
    match s
      case Qcp => QcpUnclaimed();
      case Icns => IcnsUnclaimed();
      case Heic => HeicUnclaimed();
      case HeicSequence => HeicSeqUnclaimed();
      case Heif => HeifUnclaimed();
      case HeifSequence => HeifSeqUnclaimed();
      case Marc => MrcUnclaimed();
      case MsAccessMdb => MdbUnclaimed();
      case MsAccessAce => AccdbUnclaimed();
      case _ => assert false;
  }

  lemma MimesUnclaimed15(s: Sig)
    requires s in {Zstd}
    ensures AliasIndex(MimeOf(s)).None? || s == M4a
    ensures s == M4a ==> AliasIndex(MimeOf(s)) == Some(AMp4)
  {
    match s
      case Zstd => ZstdUnclaimed();
      case _ => assert false;
  }

  lemma MimesUnclaimedPart0(s: Sig)
    requires s in {True, SevenZ, Zip, Xlsx, Docx, Pptx, Epub, Jar, Odt, Ott, Ods, Ots, Odp, Otp, Odg, Otg, Odf, Pdf, Ole, Xls, Pub, Ppt, Doc, Ps, Psd, Ogg, OggAudio, OggVideo, Png, Jpg, Jp2, Jpx, Jpm, Gif, Webp, Exe}
    ensures AliasIndex(MimeOf(s)).None? || s == M4a
    ensures s == M4a ==> AliasIndex(MimeOf(s)) == Some(AMp4)
  {
    if s in {True, SevenZ, Zip, Xlsx, Docx, Pptx, Epub, Jar, Odt} {
      MimesUnclaimed0(s);
    } else if s in {Ott, Ods, Ots, Odp, Otp, Odg, Otg, Odf, Pdf} {
      MimesUnclaimed1(s);
    } else if s in {Ole, Xls, Pub, Ppt, Doc, Ps, Psd, Ogg, OggAudio} {
      MimesUnclaimed2(s);
    } else {
      MimesUnclaimed3(s);
    }
  }

  lemma MimesUnclaimedPart1(s: Sig)
    requires s in {Elf, ElfObj, ElfExe, ElfLib, ElfDump, Ar, Deb, Tar, Xar, Bz2, Fits, Tiff, Bmp, Ico, Mp3, Flac, Midi, Ape, MusePack, Amr, Wav, Aiff, Au, Mpeg, QuickTime, Mqv, Mp4, WebM, ThreeGP, ThreeG2, Avi, Flv, Mkv, Asf, Aac, Voc}
    ensures AliasIndex(MimeOf(s)).None? || s == M4a
    ensures s == M4a ==> AliasIndex(MimeOf(s)) == Some(AMp4)
  {
    if s in {Elf, ElfObj, ElfExe, ElfLib, ElfDump, Ar, Deb, Tar, Xar} {
      MimesUnclaimed4(s);
    } else if s in {Bz2, Fits, Tiff, Bmp, Ico, Mp3, Flac, Midi, Ape} {
      MimesUnclaimed5(s);
    } else if s in {MusePack, Amr, Wav, Aiff, Au, Mpeg, QuickTime, Mqv, Mp4} {
      MimesUnclaimed6(s);
    } else {
      MimesUnclaimed7(s);
    }
  }

  lemma MimesUnclaimedPart2(s: Sig)
    requires s in {AMp4, M4a, Txt, Html, Svg, Xml, Rss, Atom, X3d, Kml, Xliff, Collada, Gml, Gpx, Tcx, Amf, Threemf, Php, Js, Lua, Perl, Python, Json, GeoJson, NdJson, Rtf, Tcl, Csv, Tsv, VCard, ICalendar, Warc, Gzip, Class, Swf, Crx}
    ensures AliasIndex(MimeOf(s)).None? || s == M4a
    ensures s == M4a ==> AliasIndex(MimeOf(s)) == Some(AMp4)
  {
    if s in {AMp4, M4a, Txt, Html, Svg, Xml, Rss, Atom, X3d} {
      MimesUnclaimed8(s);
    } else if s in {Kml, Xliff, Collada, Gml, Gpx, Tcx, Amf, Threemf, Php} {
      MimesUnclaimed9(s);
    } else if s in {Js, Lua, Perl, Python, Json, GeoJson, NdJson, Rtf, Tcl} {
      MimesUnclaimed10(s);
    } else {
      MimesUnclaimed11(s);
    }
  }

  lemma MimesUnclaimedPart3(s: Sig)
    requires s in {Woff, Woff2, Otf, Eot, Wasm, Shx, Shp, Dbf, Dcm, Rar, DjVu, Mobi, Lit, Bpg, Sqlite, Dwg, Nes, MachO, Qcp, Icns, Heic, HeicSequence, Heif, HeifSequence, Marc, MsAccessMdb, MsAccessAce, Zstd}
    ensures AliasIndex(MimeOf(s)).None? || s == M4a
    ensures s == M4a ==> AliasIndex(MimeOf(s)) == Some(AMp4)
  {
    if s in {Woff, Woff2, Otf, Eot, Wasm, Shx, Shp, Dbf, Dcm} {
      MimesUnclaimed12(s);
    } else if s in {Rar, DjVu, Mobi, Lit, Bpg, Sqlite, Dwg, Nes, MachO} {
      MimesUnclaimed13(s);
    } else if s in {Qcp, Icns, Heic, HeicSequence, Heif, HeifSequence, Marc, MsAccessMdb, MsAccessAce} {
      MimesUnclaimed14(s);
    } else {
      MimesUnclaimed15(s);
    }
  }

  // Each canonical type in the table, looked up in the alias index.

  lemma RootUnclaimed()
    ensures AliasIndex(MimeOf(True)) == None
  {
    assert MimeOf(True) == "application/octet-stream";
    assert AliasIndex("application/octet-stream") == None;
  }

  lemma SevenZUnclaimed()
    ensures AliasIndex(MimeOf(SevenZ)) == None
  {
    assert MimeOf(SevenZ) == "application/x-7z-compressed";
    assert AliasIndex("application/x-7z-compressed") == None;
  }

  lemma ZipUnclaimed()
    ensures AliasIndex(MimeOf(Zip)) == None
  {
    assert MimeOf(Zip) == "application/zip";
    assert AliasIndex("application/zip") == None;
  }

  lemma XlsxUnclaimed()
    ensures AliasIndex(MimeOf(Xlsx)) == None
  {
    assert MimeOf(Xlsx) == "application/vnd.openxmlformats-officedocument.spreadsheetml.sheet";
    assert AliasIndex("application/vnd.openxmlformats-officedocument.spreadsheetml.sheet") == None;
  }

  lemma DocxUnclaimed()
    ensures AliasIndex(MimeOf(Docx)) == None
  {
    assert MimeOf(Docx) == "application/vnd.openxmlformats-officedocument.wordprocessingml.document";
    assert AliasIndex("application/vnd.openxmlformats-officedocument.wordprocessingml.document") == None;
  }

  lemma PptxUnclaimed()
    ensures AliasIndex(MimeOf(Pptx)) == None
  {
    assert MimeOf(Pptx) == "application/vnd.openxmlformats-officedocument.presentationml.presentation";
    assert AliasIndex("application/vnd.openxmlformats-officedocument.presentationml.presentation") == None;
  }

  lemma EpubUnclaimed()
    ensures AliasIndex(MimeOf(Epub)) == None
  {
    assert MimeOf(Epub) == "application/epub+zip";
    assert AliasIndex("application/epub+zip") == None;
  }

  lemma JarUnclaimed()
    ensures AliasIndex(MimeOf(Jar)) == None
  {
    assert MimeOf(Jar) == "application/jar";
    assert AliasIndex("application/jar") == None;
  }

  lemma OdtUnclaimed()
    ensures AliasIndex(MimeOf(Odt)) == None
  {
    assert MimeOf(Odt) == "application/vnd.oasis.opendocument.text";
    assert AliasIndex("application/vnd.oasis.opendocument.text") == None;
  }

  lemma OttUnclaimed()
    ensures AliasIndex(MimeOf(Ott)) == None
  {
    assert MimeOf(Ott) == "application/vnd.oasis.opendocument.text-template";
    assert AliasIndex("application/vnd.oasis.opendocument.text-template") == None;
  }

  lemma OdsUnclaimed()
    ensures AliasIndex(MimeOf(Ods)) == None
  {
    assert MimeOf(Ods) == "application/vnd.oasis.opendocument.spreadsheet";
    assert AliasIndex("application/vnd.oasis.opendocument.spreadsheet") == None;
  }

  lemma OtsUnclaimed()
    ensures AliasIndex(MimeOf(Ots)) == None
  {
    assert MimeOf(Ots) == "application/vnd.oasis.opendocument.spreadsheet-template";
    assert AliasIndex("application/vnd.oasis.opendocument.spreadsheet-template") == None;
  }

  lemma OdpUnclaimed()
    ensures AliasIndex(MimeOf(Odp)) == None
  {
    assert MimeOf(Odp) == "application/vnd.oasis.opendocument.presentation";
    assert AliasIndex("application/vnd.oasis.opendocument.presentation") == None;
  }

  lemma OtpUnclaimed()
    ensures AliasIndex(MimeOf(Otp)) == None
  {
    assert MimeOf(Otp) == "application/vnd.oasis.opendocument.presentation-template";
    assert AliasIndex("application/vnd.oasis.opendocument.presentation-template") == None;
  }

  lemma OdgUnclaimed()
    ensures AliasIndex(MimeOf(Odg)) == None
  {
    assert MimeOf(Odg) == "application/vnd.oasis.opendocument.graphics";
    assert AliasIndex("application/vnd.oasis.opendocument.graphics") == None;
  }

  lemma OtgUnclaimed()
    ensures AliasIndex(MimeOf(Otg)) == None
  {
    assert MimeOf(Otg) == "application/vnd.oasis.opendocument.graphics-template";
    assert AliasIndex("application/vnd.oasis.opendocument.graphics-template") == None;
  }

  lemma OdfUnclaimed()
    ensures AliasIndex(MimeOf(Odf)) == None
  {
    assert MimeOf(Odf) == "application/vnd.oasis.opendocument.formula";
    assert AliasIndex("application/vnd.oasis.opendocument.formula") == None;
  }

  lemma PdfUnclaimed()
    ensures AliasIndex(MimeOf(Pdf)) == None
  {
    assert MimeOf(Pdf) == "application/pdf";
    assert AliasIndex("application/pdf") == None;
  }

  lemma OleUnclaimed()
    ensures AliasIndex(MimeOf(Ole)) == None
  {
    assert MimeOf(Ole) == "application/x-ole-storage";
    assert AliasIndex("application/x-ole-storage") == None;
  }

  lemma XlsUnclaimed()
    ensures AliasIndex(MimeOf(Xls)) == None
  {
    assert MimeOf(Xls) == "application/vnd.ms-excel";
    assert AliasIndex("application/vnd.ms-excel") == None;
  }

  lemma PubUnclaimed()
    ensures AliasIndex(MimeOf(Pub)) == None
  {
    assert MimeOf(Pub) == "application/vnd.ms-publisher";
    assert AliasIndex("application/vnd.ms-publisher") == None;
  }

  lemma PptUnclaimed()
    ensures AliasIndex(MimeOf(Ppt)) == None
  {
    assert MimeOf(Ppt) == "application/vnd.ms-powerpoint";
    assert AliasIndex("application/vnd.ms-powerpoint") == None;
  }

  lemma DocUnclaimed()
    ensures AliasIndex(MimeOf(Doc)) == None
  {
    assert MimeOf(Doc) == "application/msword";
    assert AliasIndex("application/msword") == None;
  }

  lemma PsUnclaimed()
    ensures AliasIndex(MimeOf(Ps)) == None
  {
    assert MimeOf(Ps) == "application/postscript";
    assert AliasIndex("application/postscript") == None;
  }

  lemma PsdUnclaimed()
    ensures AliasIndex(MimeOf(Psd)) == None
  {
    assert MimeOf(Psd) == "image/vnd.adobe.photoshop";
    assert AliasIndex("image/vnd.adobe.photoshop") == None;
  }

  lemma OggUnclaimed()
    ensures AliasIndex(MimeOf(Ogg)) == None
  {
    assert MimeOf(Ogg) == "application/ogg";
    assert AliasIndex("application/ogg") == None;
  }

  lemma OggAudioUnclaimed()
    ensures AliasIndex(MimeOf(OggAudio)) == None
  {
    assert MimeOf(OggAudio) == "audio/ogg";
    assert AliasIndex("audio/ogg") == None;
  }

  lemma OggVideoUnclaimed()
    ensures AliasIndex(MimeOf(OggVideo)) == None
  {
    assert MimeOf(OggVideo) == "video/ogg";
    assert AliasIndex("video/ogg") == None;
  }

  lemma PngUnclaimed()
    ensures AliasIndex(MimeOf(Png)) == None
  {
    assert MimeOf(Png) == "image/png";
    assert AliasIndex("image/png") == None;
  }

  lemma JpgUnclaimed()
    ensures AliasIndex(MimeOf(Jpg)) == None
  {
    assert MimeOf(Jpg) == "image/jpeg";
    assert AliasIndex("image/jpeg") == None;
  }

  lemma Jp2Unclaimed()
    ensures AliasIndex(MimeOf(Jp2)) == None
  {
    assert MimeOf(Jp2) == "image/jp2";
    assert AliasIndex("image/jp2") == None;
  }

  lemma JpxUnclaimed()
    ensures AliasIndex(MimeOf(Jpx)) == None
  {
    assert MimeOf(Jpx) == "image/jpx";
    assert AliasIndex("image/jpx") == None;
  }

  lemma JpmUnclaimed()
    ensures AliasIndex(MimeOf(Jpm)) == None
  {
    assert MimeOf(Jpm) == "image/jpm";
    assert AliasIndex("image/jpm") == None;
  }

  lemma GifUnclaimed()
    ensures AliasIndex(MimeOf(Gif)) == None
  {
    assert MimeOf(Gif) == "image/gif";
    assert AliasIndex("image/gif") == None;
  }

  lemma WebpUnclaimed()
    ensures AliasIndex(MimeOf(Webp)) == None
  {
    assert MimeOf(Webp) == "image/webp";
    assert AliasIndex("image/webp") == None;
  }

  lemma ExeUnclaimed()
    ensures AliasIndex(MimeOf(Exe)) == None
  {
    assert MimeOf(Exe) == "application/vnd.microsoft.portable-executable";
    assert AliasIndex("application/vnd.microsoft.portable-executable") == None;
  }

  lemma ElfUnclaimed()
    ensures AliasIndex(MimeOf(Elf)) == None
  {
    assert MimeOf(Elf) == "application/x-elf";
    assert AliasIndex("application/x-elf") == None;
  }

  lemma ElfObjUnclaimed()
    ensures AliasIndex(MimeOf(ElfObj)) == None
  {
    assert MimeOf(ElfObj) == "application/x-object";
    assert AliasIndex("application/x-object") == None;
  }

  lemma ElfExeUnclaimed()
    ensures AliasIndex(MimeOf(ElfExe)) == None
  {
    assert MimeOf(ElfExe) == "application/x-executable";
    assert AliasIndex("application/x-executable") == None;
  }

  lemma ElfLibUnclaimed()
    ensures AliasIndex(MimeOf(ElfLib)) == None
  {
    assert MimeOf(ElfLib) == "application/x-sharedlib";
    assert AliasIndex("application/x-sharedlib") == None;
  }

  lemma ElfDumpUnclaimed()
    ensures AliasIndex(MimeOf(ElfDump)) == None
  {
    assert MimeOf(ElfDump) == "application/x-coredump";
    assert AliasIndex("application/x-coredump") == None;
  }

  lemma ArUnclaimed()
    ensures AliasIndex(MimeOf(Ar)) == None
  {
    assert MimeOf(Ar) == "application/x-archive";
    assert AliasIndex("application/x-archive") == None;
  }

  lemma DebUnclaimed()
    ensures AliasIndex(MimeOf(Deb)) == None
  {
    assert MimeOf(Deb) == "application/vnd.debian.binary-package";
    assert AliasIndex("application/vnd.debian.binary-package") == None;
  }

  lemma TarUnclaimed()
    ensures AliasIndex(MimeOf(Tar)) == None
  {
    assert MimeOf(Tar) == "application/x-tar";
    assert AliasIndex("application/x-tar") == None;
  }

  lemma XarUnclaimed()
    ensures AliasIndex(MimeOf(Xar)) == None
  {
    assert MimeOf(Xar) == "application/x-xar";
    assert AliasIndex("application/x-xar") == None;
  }

  lemma Bz2Unclaimed()
    ensures AliasIndex(MimeOf(Bz2)) == None
  {
    assert MimeOf(Bz2) == "application/x-bzip2";
    assert AliasIndex("application/x-bzip2") == None;
  }

  lemma FitsUnclaimed()
    ensures AliasIndex(MimeOf(Fits)) == None
  {
    assert MimeOf(Fits) == "application/fits";
    assert AliasIndex("application/fits") == None;
  }

  lemma TiffUnclaimed()
    ensures AliasIndex(MimeOf(Tiff)) == None
  {
    assert MimeOf(Tiff) == "image/tiff";
    assert AliasIndex("image/tiff") == None;
  }

  lemma BmpUnclaimed()
    ensures AliasIndex(MimeOf(Bmp)) == None
  {
    assert MimeOf(Bmp) == "image/bmp";
    assert AliasIndex("image/bmp") == None;
  }

  lemma IcoUnclaimed()
    ensures AliasIndex(MimeOf(Ico)) == None
  {
    assert MimeOf(Ico) == "image/x-icon";
    assert AliasIndex("image/x-icon") == None;
  }

  lemma Mp3Unclaimed()
    ensures AliasIndex(MimeOf(Mp3)) == None
  {
    assert MimeOf(Mp3) == "audio/mpeg";
    assert AliasIndex("audio/mpeg") == None;
  }

  lemma FlacUnclaimed()
    ensures AliasIndex(MimeOf(Flac)) == None
  {
    assert MimeOf(Flac) == "audio/flac";
    assert AliasIndex("audio/flac") == None;
  }

  lemma MidiUnclaimed()
    ensures AliasIndex(MimeOf(Midi)) == None
  {
    assert MimeOf(Midi) == "audio/midi";
    assert AliasIndex("audio/midi") == None;
  }

  lemma ApeUnclaimed()
    ensures AliasIndex(MimeOf(Ape)) == None
  {
    assert MimeOf(Ape) == "audio/ape";
    assert AliasIndex("audio/ape") == None;
  }

  lemma MusePackUnclaimed()
    ensures AliasIndex(MimeOf(MusePack)) == None
  {
    assert MimeOf(MusePack) == "audio/musepack";
    assert AliasIndex("audio/musepack") == None;
  }

  lemma AmrUnclaimed()
    ensures AliasIndex(MimeOf(Amr)) == None
  {
    assert MimeOf(Amr) == "audio/amr";
    assert AliasIndex("audio/amr") == None;
  }

  lemma WavUnclaimed()
    ensures AliasIndex(MimeOf(Wav)) == None
  {
    assert MimeOf(Wav) == "audio/wav";
    assert AliasIndex("audio/wav") == None;
  }

  lemma AiffUnclaimed()
    ensures AliasIndex(MimeOf(Aiff)) == None
  {
    assert MimeOf(Aiff) == "audio/aiff";
    assert AliasIndex("audio/aiff") == None;
  }

  lemma AuUnclaimed()
    ensures AliasIndex(MimeOf(Au)) == None
  {
    assert MimeOf(Au) == "audio/basic";
    assert AliasIndex("audio/basic") == None;
  }

  lemma MpegUnclaimed()
    ensures AliasIndex(MimeOf(Mpeg)) == None
  {
    assert MimeOf(Mpeg) == "video/mpeg";
    assert AliasIndex("video/mpeg") == None;
  }

  lemma QuickTimeUnclaimed()
    ensures AliasIndex(MimeOf(QuickTime)) == None
  {
    assert MimeOf(QuickTime) == "video/quicktime";
    assert AliasIndex("video/quicktime") == None;
  }

  lemma MqvUnclaimed()
    ensures AliasIndex(MimeOf(Mqv)) == None
  {
    assert MimeOf(Mqv) == "video/quicktime";
    assert AliasIndex("video/quicktime") == None;
  }

  lemma Mp4Unclaimed()
    ensures AliasIndex(MimeOf(Mp4)) == None
  {
    assert MimeOf(Mp4) == "video/mp4";
    assert AliasIndex("video/mp4") == None;
  }

  lemma WebMUnclaimed()
    ensures AliasIndex(MimeOf(WebM)) == None
  {
    assert MimeOf(WebM) == "video/webm";
    assert AliasIndex("video/webm") == None;
  }

  lemma ThreeGPUnclaimed()
    ensures AliasIndex(MimeOf(ThreeGP)) == None
  {
    assert MimeOf(ThreeGP) == "video/3gpp";
    assert AliasIndex("video/3gpp") == None;
  }

  lemma ThreeG2Unclaimed()
    ensures AliasIndex(MimeOf(ThreeG2)) == None
  {
    assert MimeOf(ThreeG2) == "video/3gpp2";
    assert AliasIndex("video/3gpp2") == None;
  }

  lemma AviUnclaimed()
    ensures AliasIndex(MimeOf(Avi)) == None
  {
    assert MimeOf(Avi) == "video/x-msvideo";
    assert AliasIndex("video/x-msvideo") == None;
  }

  lemma FlvUnclaimed()
    ensures AliasIndex(MimeOf(Flv)) == None
  {
    assert MimeOf(Flv) == "video/x-flv";
    assert AliasIndex("video/x-flv") == None;
  }

  lemma MkvUnclaimed()
    ensures AliasIndex(MimeOf(Mkv)) == None
  {
    assert MimeOf(Mkv) == "video/x-matroska";
    assert AliasIndex("video/x-matroska") == None;
  }

  lemma AsfUnclaimed()
    ensures AliasIndex(MimeOf(Asf)) == None
  {
    assert MimeOf(Asf) == "video/x-ms-asf";
    assert AliasIndex("video/x-ms-asf") == None;
  }

  lemma AacUnclaimed()
    ensures AliasIndex(MimeOf(Aac)) == None
  {
    assert MimeOf(Aac) == "audio/aac";
    assert AliasIndex("audio/aac") == None;
  }

  lemma VocUnclaimed()
    ensures AliasIndex(MimeOf(Voc)) == None
  {
    assert MimeOf(Voc) == "audio/x-unknown";
    assert AliasIndex("audio/x-unknown") == None;
  }

  lemma AMp4Unclaimed()
    ensures AliasIndex(MimeOf(AMp4)) == None
  {
    assert MimeOf(AMp4) == "audio/mp4";
    assert AliasIndex("audio/mp4") == None;
  }

  lemma M4aUnclaimed()
    ensures AliasIndex(MimeOf(M4a)) == Some(AMp4)
  {
    assert MimeOf(M4a) == "audio/x-m4a";
    assert AliasIndex("audio/x-m4a") == Some(AMp4);
  }

  lemma TxtUnclaimed()
    ensures AliasIndex(MimeOf(Txt)) == None
  {
    assert MimeOf(Txt) == "text/plain";
    assert AliasIndex("text/plain") == None;
  }

  lemma HtmlUnclaimed()
    ensures AliasIndex(MimeOf(Html)) == None
  {
    assert MimeOf(Html) == "text/html; charset=utf-8";
    assert AliasIndex("text/html; charset=utf-8") == None;
  }

  lemma SvgUnclaimed()
    ensures AliasIndex(MimeOf(Svg)) == None
  {
    assert MimeOf(Svg) == "image/svg+xml";
    assert AliasIndex("image/svg+xml") == None;
  }

  lemma XmlUnclaimed()
    ensures AliasIndex(MimeOf(Xml)) == None
  {
    assert MimeOf(Xml) == "text/xml; charset=utf-8";
    assert AliasIndex("text/xml; charset=utf-8") == None;
  }

  lemma RssUnclaimed()
    ensures AliasIndex(MimeOf(Rss)) == None
  {
    assert MimeOf(Rss) == "application/rss+xml";
    assert AliasIndex("application/rss+xml") == None;
  }

  lemma AtomUnclaimed()
    ensures AliasIndex(MimeOf(Atom)) == None
  {
    assert MimeOf(Atom) == "application/atom+xml";
    assert AliasIndex("application/atom+xml") == None;
  }

  lemma X3dUnclaimed()
    ensures AliasIndex(MimeOf(X3d)) == None
  {
    assert MimeOf(X3d) == "model/x3d+xml";
    assert AliasIndex("model/x3d+xml") == None;
  }

  lemma KmlUnclaimed()
    ensures AliasIndex(MimeOf(Kml)) == None
  {
    assert MimeOf(Kml) == "application/vnd.google-earth.kml+xml";
    assert AliasIndex("application/vnd.google-earth.kml+xml") == None;
  }

  lemma XliffUnclaimed()
    ensures AliasIndex(MimeOf(Xliff)) == None
  {
    assert MimeOf(Xliff) == "application/x-xliff+xml";
    assert AliasIndex("application/x-xliff+xml") == None;
  }

  lemma ColladaUnclaimed()
    ensures AliasIndex(MimeOf(Collada)) == None
  {
    assert MimeOf(Collada) == "model/vnd.collada+xml";
    assert AliasIndex("model/vnd.collada+xml") == None;
  }

  lemma GmlUnclaimed()
    ensures AliasIndex(MimeOf(Gml)) == None
  {
    assert MimeOf(Gml) == "application/gml+xml";
    assert AliasIndex("application/gml+xml") == None;
  }

  lemma GpxUnclaimed()
    ensures AliasIndex(MimeOf(Gpx)) == None
  {
    assert MimeOf(Gpx) == "application/gpx+xml";
    assert AliasIndex("application/gpx+xml") == None;
  }

  lemma TcxUnclaimed()
    ensures AliasIndex(MimeOf(Tcx)) == None
  {
    assert MimeOf(Tcx) == "application/vnd.garmin.tcx+xml";
    assert AliasIndex("application/vnd.garmin.tcx+xml") == None;
  }

  lemma AmfUnclaimed()
    ensures AliasIndex(MimeOf(Amf)) == None
  {
    assert MimeOf(Amf) == "application/x-amf";
    assert AliasIndex("application/x-amf") == None;
  }

  lemma ThreemfUnclaimed()
    ensures AliasIndex(MimeOf(Threemf)) == None
  {
    assert MimeOf(Threemf) == "application/vnd.ms-package.3dmanufacturing-3dmodel+xml";
    assert AliasIndex("application/vnd.ms-package.3dmanufacturing-3dmodel+xml") == None;
  }

  lemma PhpUnclaimed()
    ensures AliasIndex(MimeOf(Php)) == None
  {
    assert MimeOf(Php) == "text/x-php; charset=utf-8";
    assert AliasIndex("text/x-php; charset=utf-8") == None;
  }

  lemma JsUnclaimed()
    ensures AliasIndex(MimeOf(Js)) == None
  {
    assert MimeOf(Js) == "application/javascript";
    assert AliasIndex("application/javascript") == None;
  }

  lemma LuaUnclaimed()
    ensures AliasIndex(MimeOf(Lua)) == None
  {
    assert MimeOf(Lua) == "text/x-lua";
    assert AliasIndex("text/x-lua") == None;
  }

  lemma PerlUnclaimed()
    ensures AliasIndex(MimeOf(Perl)) == None
  {
    assert MimeOf(Perl) == "text/x-perl";
    assert AliasIndex("text/x-perl") == None;
  }

  lemma PythonUnclaimed()
    ensures AliasIndex(MimeOf(Python)) == None
  {
    assert MimeOf(Python) == "application/x-python";
    assert AliasIndex("application/x-python") == None;
  }

  lemma JsonUnclaimed()
    ensures AliasIndex(MimeOf(Json)) == None
  {
    assert MimeOf(Json) == "application/json";
    assert AliasIndex("application/json") == None;
  }

  lemma GeoJsonUnclaimed()
    ensures AliasIndex(MimeOf(GeoJson)) == None
  {
    assert MimeOf(GeoJson) == "application/geo+json";
    assert AliasIndex("application/geo+json") == None;
  }

  lemma NdJsonUnclaimed()
    ensures AliasIndex(MimeOf(NdJson)) == None
  {
    assert MimeOf(NdJson) == "application/x-ndjson";
    assert AliasIndex("application/x-ndjson") == None;
  }

  lemma RtfUnclaimed()
    ensures AliasIndex(MimeOf(Rtf)) == None
  {
    assert MimeOf(Rtf) == "text/rtf";
    assert AliasIndex("text/rtf") == None;
  }

  lemma TclUnclaimed()
    ensures AliasIndex(MimeOf(Tcl)) == None
  {
    assert MimeOf(Tcl) == "text/x-tcl";
    assert AliasIndex("text/x-tcl") == None;
  }

  lemma CsvUnclaimed()
    ensures AliasIndex(MimeOf(Csv)) == None
  {
    assert MimeOf(Csv) == "text/csv";
    assert AliasIndex("text/csv") == None;
  }

  lemma TsvUnclaimed()
    ensures AliasIndex(MimeOf(Tsv)) == None
  {
    assert MimeOf(Tsv) == "text/tab-separated-values";
    assert AliasIndex("text/tab-separated-values") == None;
  }

  lemma VCardUnclaimed()
    ensures AliasIndex(MimeOf(VCard)) == None
  {
    assert MimeOf(VCard) == "text/vcard";
    assert AliasIndex("text/vcard") == None;
  }

  lemma ICalendarUnclaimed()
    ensures AliasIndex(MimeOf(ICalendar)) == None
  {
    assert MimeOf(ICalendar) == "text/calendar";
    assert AliasIndex("text/calendar") == None;
  }

  lemma WarcUnclaimed()
    ensures AliasIndex(MimeOf(Warc)) == None
  {
    assert MimeOf(Warc) == "application/warc";
    assert AliasIndex("application/warc") == None;
  }

  lemma GzipUnclaimed()
    ensures AliasIndex(MimeOf(Gzip)) == None
  {
    assert MimeOf(Gzip) == "application/gzip";
    assert AliasIndex("application/gzip") == None;
  }

  lemma ClassFileUnclaimed()
    ensures AliasIndex(MimeOf(Class)) == None
  {
    assert MimeOf(Class) == "application/x-java-applet; charset=binary";
    assert AliasIndex("application/x-java-applet; charset=binary") == None;
  }

  lemma SwfUnclaimed()
    ensures AliasIndex(MimeOf(Swf)) == None
  {
    assert MimeOf(Swf) == "application/x-shockwave-flash";
    assert AliasIndex("application/x-shockwave-flash") == None;
  }

  lemma CrxUnclaimed()
    ensures AliasIndex(MimeOf(Crx)) == None
  {
    assert MimeOf(Crx) == "application/x-chrome-extension";
    assert AliasIndex("application/x-chrome-extension") == None;
  }

  lemma WoffUnclaimed()
    ensures AliasIndex(MimeOf(Woff)) == None
  {
    assert MimeOf(Woff) == "font/woff";
    assert AliasIndex("font/woff") == None;
  }

  lemma Woff2Unclaimed()
    ensures AliasIndex(MimeOf(Woff2)) == None
  {
    assert MimeOf(Woff2) == "font/woff2";
    assert AliasIndex("font/woff2") == None;
  }

  lemma OtfUnclaimed()
    ensures AliasIndex(MimeOf(Otf)) == None
  {
    assert MimeOf(Otf) == "font/otf";
    assert AliasIndex("font/otf") == None;
  }

  lemma EotUnclaimed()
    ensures AliasIndex(MimeOf(Eot)) == None
  {
    assert MimeOf(Eot) == "application/vnd.ms-fontobject";
    assert AliasIndex("application/vnd.ms-fontobject") == None;
  }

  lemma WasmUnclaimed()
    ensures AliasIndex(MimeOf(Wasm)) == None
  {
    assert MimeOf(Wasm) == "application/wasm";
    assert AliasIndex("application/wasm") == None;
  }

  lemma ShxUnclaimed()
    ensures AliasIndex(MimeOf(Shx)) == None
  {
    assert MimeOf(Shx) == "application/octet-stream";
    assert AliasIndex("application/octet-stream") == None;
  }

  lemma ShpUnclaimed()
    ensures AliasIndex(MimeOf(Shp)) == None
  {
    assert MimeOf(Shp) == "application/octet-stream";
    assert AliasIndex("application/octet-stream") == None;
  }

  lemma DbfUnclaimed()
    ensures AliasIndex(MimeOf(Dbf)) == None
  {
    assert MimeOf(Dbf) == "application/x-dbf";
    assert AliasIndex("application/x-dbf") == None;
  }

  lemma DcmUnclaimed()
    ensures AliasIndex(MimeOf(Dcm)) == None
  {
    assert MimeOf(Dcm) == "application/dicom";
    assert AliasIndex("application/dicom") == None;
  }

  lemma RarUnclaimed()
    ensures AliasIndex(MimeOf(Rar)) == None
  {
    assert MimeOf(Rar) == "application/x-rar-compressed";
    assert AliasIndex("application/x-rar-compressed") == None;
  }

  lemma DjvuUnclaimed()
    ensures AliasIndex(MimeOf(DjVu)) == None
  {
    assert MimeOf(DjVu) == "image/vnd.djvu";
    assert AliasIndex("image/vnd.djvu") == None;
  }

  lemma MobiUnclaimed()
    ensures AliasIndex(MimeOf(Mobi)) == None
  {
    assert MimeOf(Mobi) == "application/x-mobipocket-ebook";
    assert AliasIndex("application/x-mobipocket-ebook") == None;
  }

  lemma LitUnclaimed()
    ensures AliasIndex(MimeOf(Lit)) == None
  {
    assert MimeOf(Lit) == "application/x-ms-reader";
    assert AliasIndex("application/x-ms-reader") == None;
  }

  lemma BpgUnclaimed()
    ensures AliasIndex(MimeOf(Bpg)) == None
  {
    assert MimeOf(Bpg) == "image/bpg";
    assert AliasIndex("image/bpg") == None;
  }

  lemma Sqlite3Unclaimed()
    ensures AliasIndex(MimeOf(Sqlite)) == None
  {
    assert MimeOf(Sqlite) == "application/x-sqlite3";
    assert AliasIndex("application/x-sqlite3") == None;
  }

  lemma DwgUnclaimed()
    ensures AliasIndex(MimeOf(Dwg)) == None
  {
    assert MimeOf(Dwg) == "image/vnd.dwg";
    assert AliasIndex("image/vnd.dwg") == None;
  }

  lemma NesUnclaimed()
    ensures AliasIndex(MimeOf(Nes)) == None
  {
    assert MimeOf(Nes) == "application/vnd.nintendo.snes.rom";
    assert AliasIndex("application/vnd.nintendo.snes.rom") == None;
  }

  lemma MachoUnclaimed()
    ensures AliasIndex(MimeOf(MachO)) == None
  {
    assert MimeOf(MachO) == "application/x-mach-binary";
    assert AliasIndex("application/x-mach-binary") == None;
  }

  lemma QcpUnclaimed()
    ensures AliasIndex(MimeOf(Qcp)) == None
  {
    assert MimeOf(Qcp) == "audio/qcelp";
    assert AliasIndex("audio/qcelp") == None;
  }

  lemma IcnsUnclaimed()
    ensures AliasIndex(MimeOf(Icns)) == None
  {
    assert MimeOf(Icns) == "image/x-icns";
    assert AliasIndex("image/x-icns") == None;
  }

  lemma HeicUnclaimed()
    ensures AliasIndex(MimeOf(Heic)) == None
  {
    assert MimeOf(Heic) == "image/heic";
    assert AliasIndex("image/heic") == None;
  }

  lemma HeicSeqUnclaimed()
    ensures AliasIndex(MimeOf(HeicSequence)) == None
  {
    assert MimeOf(HeicSequence) == "image/heic-sequence";
    assert AliasIndex("image/heic-sequence") == None;
  }

  lemma HeifUnclaimed()
    ensures AliasIndex(MimeOf(Heif)) == None
  {
    assert MimeOf(Heif) == "image/heif";
    assert AliasIndex("image/heif") == None;
  }

  lemma HeifSeqUnclaimed()
    ensures AliasIndex(MimeOf(HeifSequence)) == None
  {
    assert MimeOf(HeifSequence) == "image/heif-sequence";
    assert AliasIndex("image/heif-sequence") == None;
  }

  lemma MrcUnclaimed()
    ensures AliasIndex(MimeOf(Marc)) == None
  {
    assert MimeOf(Marc) == "application/marc";
    assert AliasIndex("application/marc") == None;
  }

  lemma MdbUnclaimed()
    ensures AliasIndex(MimeOf(MsAccessMdb)) == None
  {
    assert MimeOf(MsAccessMdb) == "application/x-msaccess";
    assert AliasIndex("application/x-msaccess") == None;
  }

  lemma AccdbUnclaimed()
    ensures AliasIndex(MimeOf(MsAccessAce)) == None
  {
    assert MimeOf(MsAccessAce) == "application/x-msaccess";
    assert AliasIndex("application/x-msaccess") == None;
  }

  lemma ZstdUnclaimed()
    ensures AliasIndex(MimeOf(Zstd)) == None
  {
    assert MimeOf(Zstd) == "application/zstd";
    assert AliasIndex("application/zstd") == None;
  }

  /**
   * Checks the subtree under n against the certificates, with k the ordinal
   * n must carry and d the number of levels allowed below n. The result is
   * the ordinal that follows the subtree, or -1 if some node fails: it carries
   * another ordinal or another canonical type than the tables give its
   * signature, one of its aliases is indexed elsewhere, or it lies too deep.
   */
  ghost function Check(n: Node, k: int, d: int): int
    decreases n
  {
    if Ordinal(n.sig) != k || n.mime != MimeOf(n.sig) || !AliasesIndexed(n) || d < 0 || (d == 0 && |n.children| > 0) then -1
    else CheckAll(n.children, k + 1, d - 1)
  }

  /** Checks the subtrees under cs one after the other, numbering from k. */
  ghost function CheckAll(cs: seq<Node>, k: int, d: int): int
    decreases cs
  {
    if |cs| == 0 then k
    else
      var next := Check(cs[0], k, d);
      if next < 0 then -1 else CheckAll(cs[1..], next, d)
  }

  /**
   * A subtree that passes the check is numbered k, k + 1, ... in preorder, so
   * its signatures are unique; it is no higher than d; each of its nodes
   * carries the canonical type the table gives its signature; and each of
   * its aliases is indexed against the node that declares it.
   */
  lemma {:induction false} CheckSound(n: Node, k: int, d: int)
    requires Check(n, k, d) >= 0
    ensures Check(n, k, d) == k + |Flatten(n)|
    ensures Ordinal(n.sig) == k
    ensures forall s | s in Bag(n) :: k <= Ordinal(s) < k + |Flatten(n)|
    ensures Unique(Bag(n))
    ensures Height(n) <= d
    ensures forall m | m in Flatten(n) :: AliasesIndexed(m)
    ensures forall m | m in Flatten(n) :: m.mime == MimeOf(m.sig)
    decreases n, 1
  {
    BagUnfold(n);
    CheckAllSound(n.children, k + 1, d - 1);
    if |n.children| > 0 {
      MaxHeightAtMost(n.children, d - 1);
    }
    forall s | s in Bag(n) ensures Bag(n)[s] == 1 {
      if s == n.sig {
        assert s !in BagAll(n.children);
      }
    }
  }

  lemma {:induction false} CheckAllSound(cs: seq<Node>, k: int, d: int)
    requires CheckAll(cs, k, d) >= 0
    ensures CheckAll(cs, k, d) == k + |FlattenAll(cs)|
    ensures forall s | s in BagAll(cs) :: k <= Ordinal(s) < k + |FlattenAll(cs)|
    ensures Unique(BagAll(cs))
    ensures forall c | c in cs :: Height(c) <= d
    ensures forall m | m in FlattenAll(cs) :: AliasesIndexed(m)
    ensures forall m | m in FlattenAll(cs) :: m.mime == MimeOf(m.sig)
    decreases cs, 0
  {
    if |cs| > 0 {
      var next := Check(cs[0], k, d);
      CheckSound(cs[0], k, d);
      CheckAllSound(cs[1..], next, d);
      BagAllUnfold(cs);
      forall s | s in BagAll(cs) ensures BagAll(cs)[s] == 1 {
        if s in Bag(cs[0]) {
          assert s !in BagAll(cs[1..]);
        }
      }
    }
  }

  /** One step of the check of a child list: the child at i, then the rest. */
  lemma CheckAllStep(cs: seq<Node>, i: nat, k: int, d: int)
    requires i < |cs|
    ensures CheckAll(cs[i..], k, d) ==
      (var next := Check(cs[i], k, d); if next < 0 then -1 else CheckAll(cs[i + 1..], next, d))
  {
    assert cs[i..][1..] == cs[i + 1..];
  }

  lemma RootChildren0()
    ensures CheckAll(root.children[0..], 1, 2) == CheckAll(root.children[1..], 2, 2)
  {
    var cs := root.children;
    SevenZChecked();
    CheckAllStep(cs, 0, 1, 2);
  }

  lemma RootChildren1()
    ensures CheckAll(root.children[1..], 2, 2) == CheckAll(root.children[2..], 17, 2)
  {
    var cs := root.children;
    ZipChecked();
    CheckAllStep(cs, 1, 2, 2);
  }

  lemma RootChildren2()
    ensures CheckAll(root.children[2..], 17, 2) == CheckAll(root.children[3..], 18, 2)
  {
    var cs := root.children;
    PdfChecked();
    CheckAllStep(cs, 2, 17, 2);
  }

  lemma RootChildren3()
    ensures CheckAll(root.children[3..], 18, 2) == CheckAll(root.children[4..], 23, 2)
  {
    var cs := root.children;
    OleChecked();
    CheckAllStep(cs, 3, 18, 2);
  }

  lemma RootChildren4()
    ensures CheckAll(root.children[4..], 23, 2) == CheckAll(root.children[5..], 24, 2)
  {
    var cs := root.children;
    PsChecked();
    CheckAllStep(cs, 4, 23, 2);
  }

  lemma RootChildren5()
    ensures CheckAll(root.children[5..], 24, 2) == CheckAll(root.children[6..], 25, 2)
  {
    var cs := root.children;
    PsdChecked();
    CheckAllStep(cs, 5, 24, 2);
  }

  lemma RootChildren6()
    ensures CheckAll(root.children[6..], 25, 2) == CheckAll(root.children[7..], 28, 2)
  {
    var cs := root.children;
    OggChecked();
    CheckAllStep(cs, 6, 25, 2);
  }

  lemma RootChildren7()
    ensures CheckAll(root.children[7..], 28, 2) == CheckAll(root.children[8..], 29, 2)
  {
    var cs := root.children;
    PngChecked();
    CheckAllStep(cs, 7, 28, 2);
  }

  lemma RootChildren8()
    ensures CheckAll(root.children[8..], 29, 2) == CheckAll(root.children[9..], 30, 2)
  {
    var cs := root.children;
    JpgChecked();
    CheckAllStep(cs, 8, 29, 2);
  }

  lemma RootChildren9()
    ensures CheckAll(root.children[9..], 30, 2) == CheckAll(root.children[10..], 31, 2)
  {
    var cs := root.children;
    Jp2Checked();
    CheckAllStep(cs, 9, 30, 2);
  }

  lemma RootChildren10()
    ensures CheckAll(root.children[10..], 31, 2) == CheckAll(root.children[11..], 32, 2)
  {
    var cs := root.children;
    JpxChecked();
    CheckAllStep(cs, 10, 31, 2);
  }

  lemma RootChildren11()
    ensures CheckAll(root.children[11..], 32, 2) == CheckAll(root.children[12..], 33, 2)
  {
    var cs := root.children;
    JpmChecked();
    CheckAllStep(cs, 11, 32, 2);
  }

  lemma RootChildren12()
    ensures CheckAll(root.children[12..], 33, 2) == CheckAll(root.children[13..], 34, 2)
  {
    var cs := root.children;
    GifChecked();
    CheckAllStep(cs, 12, 33, 2);
  }

  lemma RootChildren13()
    ensures CheckAll(root.children[13..], 34, 2) == CheckAll(root.children[14..], 35, 2)
  {
    var cs := root.children;
    WebpChecked();
    CheckAllStep(cs, 13, 34, 2);
  }

  lemma RootChildren14()
    ensures CheckAll(root.children[14..], 35, 2) == CheckAll(root.children[15..], 36, 2)
  {
    var cs := root.children;
    ExeChecked();
    CheckAllStep(cs, 14, 35, 2);
  }

  lemma RootChildren15()
    ensures CheckAll(root.children[15..], 36, 2) == CheckAll(root.children[16..], 41, 2)
  {
    var cs := root.children;
    ElfChecked();
    CheckAllStep(cs, 15, 36, 2);
  }

  lemma RootChildren16()
    ensures CheckAll(root.children[16..], 41, 2) == CheckAll(root.children[17..], 43, 2)
  {
    var cs := root.children;
    ArChecked();
    CheckAllStep(cs, 16, 41, 2);
  }

  lemma RootChildren17()
    ensures CheckAll(root.children[17..], 43, 2) == CheckAll(root.children[18..], 44, 2)
  {
    var cs := root.children;
    TarChecked();
    CheckAllStep(cs, 17, 43, 2);
  }

  lemma RootChildren18()
    ensures CheckAll(root.children[18..], 44, 2) == CheckAll(root.children[19..], 45, 2)
  {
    var cs := root.children;
    XarChecked();
    CheckAllStep(cs, 18, 44, 2);
  }

  lemma RootChildren19()
    ensures CheckAll(root.children[19..], 45, 2) == CheckAll(root.children[20..], 46, 2)
  {
    var cs := root.children;
    Bz2Checked();
    CheckAllStep(cs, 19, 45, 2);
  }

  lemma RootChildren20()
    ensures CheckAll(root.children[20..], 46, 2) == CheckAll(root.children[21..], 47, 2)
  {
    var cs := root.children;
    FitsChecked();
    CheckAllStep(cs, 20, 46, 2);
  }

  lemma RootChildren21()
    ensures CheckAll(root.children[21..], 47, 2) == CheckAll(root.children[22..], 48, 2)
  {
    var cs := root.children;
    TiffChecked();
    CheckAllStep(cs, 21, 47, 2);
  }

  lemma RootChildren22()
    ensures CheckAll(root.children[22..], 48, 2) == CheckAll(root.children[23..], 49, 2)
  {
    var cs := root.children;
    BmpChecked();
    CheckAllStep(cs, 22, 48, 2);
  }

  lemma RootChildren23()
    ensures CheckAll(root.children[23..], 49, 2) == CheckAll(root.children[24..], 50, 2)
  {
    var cs := root.children;
    IcoChecked();
    CheckAllStep(cs, 23, 49, 2);
  }

  lemma RootChildren24()
    ensures CheckAll(root.children[24..], 50, 2) == CheckAll(root.children[25..], 51, 2)
  {
    var cs := root.children;
    Mp3Checked();
    CheckAllStep(cs, 24, 50, 2);
  }

  lemma RootChildren25()
    ensures CheckAll(root.children[25..], 51, 2) == CheckAll(root.children[26..], 52, 2)
  {
    var cs := root.children;
    FlacChecked();
    CheckAllStep(cs, 25, 51, 2);
  }

  lemma RootChildren26()
    ensures CheckAll(root.children[26..], 52, 2) == CheckAll(root.children[27..], 53, 2)
  {
    var cs := root.children;
    MidiChecked();
    CheckAllStep(cs, 26, 52, 2);
  }

  lemma RootChildren27()
    ensures CheckAll(root.children[27..], 53, 2) == CheckAll(root.children[28..], 54, 2)
  {
    var cs := root.children;
    ApeChecked();
    CheckAllStep(cs, 27, 53, 2);
  }

  lemma RootChildren28()
    ensures CheckAll(root.children[28..], 54, 2) == CheckAll(root.children[29..], 55, 2)
  {
    var cs := root.children;
    MusePackChecked();
    CheckAllStep(cs, 28, 54, 2);
  }

  lemma RootChildren29()
    ensures CheckAll(root.children[29..], 55, 2) == CheckAll(root.children[30..], 56, 2)
  {
    var cs := root.children;
    AmrChecked();
    CheckAllStep(cs, 29, 55, 2);
  }

  lemma RootChildren30()
    ensures CheckAll(root.children[30..], 56, 2) == CheckAll(root.children[31..], 57, 2)
  {
    var cs := root.children;
    WavChecked();
    CheckAllStep(cs, 30, 56, 2);
  }

  lemma RootChildren31()
    ensures CheckAll(root.children[31..], 57, 2) == CheckAll(root.children[32..], 58, 2)
  {
    var cs := root.children;
    AiffChecked();
    CheckAllStep(cs, 31, 57, 2);
  }

  lemma RootChildren32()
    ensures CheckAll(root.children[32..], 58, 2) == CheckAll(root.children[33..], 59, 2)
  {
    var cs := root.children;
    AuChecked();
    CheckAllStep(cs, 32, 58, 2);
  }

  lemma RootChildren33()
    ensures CheckAll(root.children[33..], 59, 2) == CheckAll(root.children[34..], 60, 2)
  {
    var cs := root.children;
    MpegChecked();
    CheckAllStep(cs, 33, 59, 2);
  }

  lemma RootChildren34()
    ensures CheckAll(root.children[34..], 60, 2) == CheckAll(root.children[35..], 61, 2)
  {
    var cs := root.children;
    QuickTimeChecked();
    CheckAllStep(cs, 34, 60, 2);
  }

  lemma RootChildren35()
    ensures CheckAll(root.children[35..], 61, 2) == CheckAll(root.children[36..], 62, 2)
  {
    var cs := root.children;
    MqvChecked();
    CheckAllStep(cs, 35, 61, 2);
  }

  lemma RootChildren36()
    ensures CheckAll(root.children[36..], 62, 2) == CheckAll(root.children[37..], 63, 2)
  {
    var cs := root.children;
    Mp4Checked();
    CheckAllStep(cs, 36, 62, 2);
  }

  lemma RootChildren37()
    ensures CheckAll(root.children[37..], 63, 2) == CheckAll(root.children[38..], 64, 2)
  {
    var cs := root.children;
    WebMChecked();
    CheckAllStep(cs, 37, 63, 2);
  }

  lemma RootChildren38()
    ensures CheckAll(root.children[38..], 64, 2) == CheckAll(root.children[39..], 65, 2)
  {
    var cs := root.children;
    ThreeGPChecked();
    CheckAllStep(cs, 38, 64, 2);
  }

  lemma RootChildren39()
    ensures CheckAll(root.children[39..], 65, 2) == CheckAll(root.children[40..], 66, 2)
  {
    var cs := root.children;
    ThreeG2Checked();
    CheckAllStep(cs, 39, 65, 2);
  }

  lemma RootChildren40()
    ensures CheckAll(root.children[40..], 66, 2) == CheckAll(root.children[41..], 67, 2)
  {
    var cs := root.children;
    AviChecked();
    CheckAllStep(cs, 40, 66, 2);
  }

  lemma RootChildren41()
    ensures CheckAll(root.children[41..], 67, 2) == CheckAll(root.children[42..], 68, 2)
  {
    var cs := root.children;
    FlvChecked();
    CheckAllStep(cs, 41, 67, 2);
  }

  lemma RootChildren42()
    ensures CheckAll(root.children[42..], 68, 2) == CheckAll(root.children[43..], 69, 2)
  {
    var cs := root.children;
    MkvChecked();
    CheckAllStep(cs, 42, 68, 2);
  }

  lemma RootChildren43()
    ensures CheckAll(root.children[43..], 69, 2) == CheckAll(root.children[44..], 70, 2)
  {
    var cs := root.children;
    AsfChecked();
    CheckAllStep(cs, 43, 69, 2);
  }

  lemma RootChildren44()
    ensures CheckAll(root.children[44..], 70, 2) == CheckAll(root.children[45..], 71, 2)
  {
    var cs := root.children;
    AacChecked();
    CheckAllStep(cs, 44, 70, 2);
  }

  lemma RootChildren45()
    ensures CheckAll(root.children[45..], 71, 2) == CheckAll(root.children[46..], 72, 2)
  {
    var cs := root.children;
    VocChecked();
    CheckAllStep(cs, 45, 71, 2);
  }

  lemma RootChildren46()
    ensures CheckAll(root.children[46..], 72, 2) == CheckAll(root.children[47..], 73, 2)
  {
    var cs := root.children;
    AMp4Checked();
    CheckAllStep(cs, 46, 72, 2);
  }

  lemma RootChildren47()
    ensures CheckAll(root.children[47..], 73, 2) == CheckAll(root.children[48..], 74, 2)
  {
    var cs := root.children;
    M4aChecked();
    CheckAllStep(cs, 47, 73, 2);
  }

  lemma RootChildren48()
    ensures CheckAll(root.children[48..], 74, 2) == CheckAll(root.children[49..], 104, 2)
  {
    var cs := root.children;
    TxtChecked();
    CheckAllStep(cs, 48, 74, 2);
  }

  lemma RootChildren49()
    ensures CheckAll(root.children[49..], 104, 2) == CheckAll(root.children[50..], 105, 2)
  {
    var cs := root.children;
    GzipChecked();
    CheckAllStep(cs, 49, 104, 2);
  }

  lemma RootChildren50()
    ensures CheckAll(root.children[50..], 105, 2) == CheckAll(root.children[51..], 106, 2)
  {
    var cs := root.children;
    ClassFileChecked();
    CheckAllStep(cs, 50, 105, 2);
  }

  lemma RootChildren51()
    ensures CheckAll(root.children[51..], 106, 2) == CheckAll(root.children[52..], 107, 2)
  {
    var cs := root.children;
    SwfChecked();
    CheckAllStep(cs, 51, 106, 2);
  }

  lemma RootChildren52()
    ensures CheckAll(root.children[52..], 107, 2) == CheckAll(root.children[53..], 108, 2)
  {
    var cs := root.children;
    CrxChecked();
    CheckAllStep(cs, 52, 107, 2);
  }

  lemma RootChildren53()
    ensures CheckAll(root.children[53..], 108, 2) == CheckAll(root.children[54..], 109, 2)
  {
    var cs := root.children;
    WoffChecked();
    CheckAllStep(cs, 53, 108, 2);
  }

  lemma RootChildren54()
    ensures CheckAll(root.children[54..], 109, 2) == CheckAll(root.children[55..], 110, 2)
  {
    var cs := root.children;
    Woff2Checked();
    CheckAllStep(cs, 54, 109, 2);
  }

  lemma RootChildren55()
    ensures CheckAll(root.children[55..], 110, 2) == CheckAll(root.children[56..], 111, 2)
  {
    var cs := root.children;
    OtfChecked();
    CheckAllStep(cs, 55, 110, 2);
  }

  lemma RootChildren56()
    ensures CheckAll(root.children[56..], 111, 2) == CheckAll(root.children[57..], 112, 2)
  {
    var cs := root.children;
    EotChecked();
    CheckAllStep(cs, 56, 111, 2);
  }

  lemma RootChildren57()
    ensures CheckAll(root.children[57..], 112, 2) == CheckAll(root.children[58..], 113, 2)
  {
    var cs := root.children;
    WasmChecked();
    CheckAllStep(cs, 57, 112, 2);
  }

  lemma RootChildren58()
    ensures CheckAll(root.children[58..], 113, 2) == CheckAll(root.children[59..], 115, 2)
  {
    var cs := root.children;
    ShxChecked();
    CheckAllStep(cs, 58, 113, 2);
  }

  lemma RootChildren59()
    ensures CheckAll(root.children[59..], 115, 2) == CheckAll(root.children[60..], 116, 2)
  {
    var cs := root.children;
    DbfChecked();
    CheckAllStep(cs, 59, 115, 2);
  }

  lemma RootChildren60()
    ensures CheckAll(root.children[60..], 116, 2) == CheckAll(root.children[61..], 117, 2)
  {
    var cs := root.children;
    DcmChecked();
    CheckAllStep(cs, 60, 116, 2);
  }

  lemma RootChildren61()
    ensures CheckAll(root.children[61..], 117, 2) == CheckAll(root.children[62..], 118, 2)
  {
    var cs := root.children;
    RarChecked();
    CheckAllStep(cs, 61, 117, 2);
  }

  lemma RootChildren62()
    ensures CheckAll(root.children[62..], 118, 2) == CheckAll(root.children[63..], 119, 2)
  {
    var cs := root.children;
    DjvuChecked();
    CheckAllStep(cs, 62, 118, 2);
  }

  lemma RootChildren63()
    ensures CheckAll(root.children[63..], 119, 2) == CheckAll(root.children[64..], 120, 2)
  {
    var cs := root.children;
    MobiChecked();
    CheckAllStep(cs, 63, 119, 2);
  }

  lemma RootChildren64()
    ensures CheckAll(root.children[64..], 120, 2) == CheckAll(root.children[65..], 121, 2)
  {
    var cs := root.children;
    LitChecked();
    CheckAllStep(cs, 64, 120, 2);
  }

  lemma RootChildren65()
    ensures CheckAll(root.children[65..], 121, 2) == CheckAll(root.children[66..], 122, 2)
  {
    var cs := root.children;
    BpgChecked();
    CheckAllStep(cs, 65, 121, 2);
  }

  lemma RootChildren66()
    ensures CheckAll(root.children[66..], 122, 2) == CheckAll(root.children[67..], 123, 2)
  {
    var cs := root.children;
    Sqlite3Checked();
    CheckAllStep(cs, 66, 122, 2);
  }

  lemma RootChildren67()
    ensures CheckAll(root.children[67..], 123, 2) == CheckAll(root.children[68..], 124, 2)
  {
    var cs := root.children;
    DwgChecked();
    CheckAllStep(cs, 67, 123, 2);
  }

  lemma RootChildren68()
    ensures CheckAll(root.children[68..], 124, 2) == CheckAll(root.children[69..], 125, 2)
  {
    var cs := root.children;
    NesChecked();
    CheckAllStep(cs, 68, 124, 2);
  }

  lemma RootChildren69()
    ensures CheckAll(root.children[69..], 125, 2) == CheckAll(root.children[70..], 126, 2)
  {
    var cs := root.children;
    MachoChecked();
    CheckAllStep(cs, 69, 125, 2);
  }

  lemma RootChildren70()
    ensures CheckAll(root.children[70..], 126, 2) == CheckAll(root.children[71..], 127, 2)
  {
    var cs := root.children;
    QcpChecked();
    CheckAllStep(cs, 70, 126, 2);
  }

  lemma RootChildren71()
    ensures CheckAll(root.children[71..], 127, 2) == CheckAll(root.children[72..], 128, 2)
  {
    var cs := root.children;
    IcnsChecked();
    CheckAllStep(cs, 71, 127, 2);
  }

  lemma RootChildren72()
    ensures CheckAll(root.children[72..], 128, 2) == CheckAll(root.children[73..], 129, 2)
  {
    var cs := root.children;
    HeicChecked();
    CheckAllStep(cs, 72, 128, 2);
  }

  lemma RootChildren73()
    ensures CheckAll(root.children[73..], 129, 2) == CheckAll(root.children[74..], 130, 2)
  {
    var cs := root.children;
    HeicSeqChecked();
    CheckAllStep(cs, 73, 129, 2);
  }

  lemma RootChildren74()
    ensures CheckAll(root.children[74..], 130, 2) == CheckAll(root.children[75..], 131, 2)
  {
    var cs := root.children;
    HeifChecked();
    CheckAllStep(cs, 74, 130, 2);
  }

  lemma RootChildren75()
    ensures CheckAll(root.children[75..], 131, 2) == CheckAll(root.children[76..], 132, 2)
  {
    var cs := root.children;
    HeifSeqChecked();
    CheckAllStep(cs, 75, 131, 2);
  }

  lemma RootChildren76()
    ensures CheckAll(root.children[76..], 132, 2) == CheckAll(root.children[77..], 133, 2)
  {
    var cs := root.children;
    MrcChecked();
    CheckAllStep(cs, 76, 132, 2);
  }

  lemma RootChildren77()
    ensures CheckAll(root.children[77..], 133, 2) == CheckAll(root.children[78..], 134, 2)
  {
    var cs := root.children;
    MdbChecked();
    CheckAllStep(cs, 77, 133, 2);
  }

  lemma RootChildren78()
    ensures CheckAll(root.children[78..], 134, 2) == CheckAll(root.children[79..], 135, 2)
  {
    var cs := root.children;
    AccdbChecked();
    CheckAllStep(cs, 78, 134, 2);
  }

  lemma RootChildren79()
    ensures CheckAll(root.children[79..], 135, 2) == CheckAll(root.children[80..], 136, 2)
  {
    var cs := root.children;
    ZstdChecked();
    CheckAllStep(cs, 79, 135, 2);
  }

  lemma RootChildren()
    ensures CheckAll(root.children, 1, 2) == 136
  {
    assert Entry(True) == (0, "application/octet-stream");
    RootChildren0();
    RootChildren1();
    RootChildren2();
    RootChildren3();
    RootChildren4();
    RootChildren5();
    RootChildren6();
    RootChildren7();
    RootChildren8();
    RootChildren9();
    RootChildren10();
    RootChildren11();
    RootChildren12();
    RootChildren13();
    RootChildren14();
    RootChildren15();
    RootChildren16();
    RootChildren17();
    RootChildren18();
    RootChildren19();
    RootChildren20();
    RootChildren21();
    RootChildren22();
    RootChildren23();
    RootChildren24();
    RootChildren25();
    RootChildren26();
    RootChildren27();
    RootChildren28();
    RootChildren29();
    RootChildren30();
    RootChildren31();
    RootChildren32();
    RootChildren33();
    RootChildren34();
    RootChildren35();
    RootChildren36();
    RootChildren37();
    RootChildren38();
    RootChildren39();
    RootChildren40();
    RootChildren41();
    RootChildren42();
    RootChildren43();
    RootChildren44();
    RootChildren45();
    RootChildren46();
    RootChildren47();
    RootChildren48();
    RootChildren49();
    RootChildren50();
    RootChildren51();
    RootChildren52();
    RootChildren53();
    RootChildren54();
    RootChildren55();
    RootChildren56();
    RootChildren57();
    RootChildren58();
    RootChildren59();
    RootChildren60();
    RootChildren61();
    RootChildren62();
    RootChildren63();
    RootChildren64();
    RootChildren65();
    RootChildren66();
    RootChildren67();
    RootChildren68();
    RootChildren69();
    RootChildren70();
    RootChildren71();
    RootChildren72();
    RootChildren73();
    RootChildren74();
    RootChildren75();
    RootChildren76();
    RootChildren77();
    RootChildren78();
    RootChildren79();
    var cs := root.children;
    assert cs[80..] == [];
    assert cs[0..] == cs;
  }

  lemma RootChecked()
    ensures Check(root, 0, 3) == 136
  {
    RootChildren();
  }

  lemma SevenZChecked()
    ensures Check(sevenZ, 1, 2) == 2
  {
    assert Entry(SevenZ) == (1, "application/x-7z-compressed");
  }

  lemma ZipIndexed()
    ensures AliasesIndexed(zip)
  {
    assert AliasIndex("application/x-zip") == Some(Zip);
    assert AliasIndex("application/x-zip-compressed") == Some(Zip);
  }

  lemma ZipChildren0()
    ensures CheckAll(zip.children[0..], 3, 1) == CheckAll(zip.children[2..], 5, 1)
  {
    var cs := zip.children;
    XlsxChecked();
    CheckAllStep(cs, 0, 3, 1);
    DocxChecked();
    CheckAllStep(cs, 1, 4, 1);
  }

  lemma ZipChildren2()
    ensures CheckAll(zip.children[2..], 5, 1) == CheckAll(zip.children[4..], 7, 1)
  {
    var cs := zip.children;
    PptxChecked();
    CheckAllStep(cs, 2, 5, 1);
    EpubChecked();
    CheckAllStep(cs, 3, 6, 1);
  }

  lemma ZipChildren4()
    ensures CheckAll(zip.children[4..], 7, 1) == CheckAll(zip.children[6..], 10, 1)
  {
    var cs := zip.children;
    JarChecked();
    CheckAllStep(cs, 4, 7, 1);
    OdtChecked();
    CheckAllStep(cs, 5, 8, 1);
  }

  lemma ZipChildren6()
    ensures CheckAll(zip.children[6..], 10, 1) == CheckAll(zip.children[8..], 14, 1)
  {
    var cs := zip.children;
    OdsChecked();
    CheckAllStep(cs, 6, 10, 1);
    OdpChecked();
    CheckAllStep(cs, 7, 12, 1);
  }

  lemma ZipChildren8()
    ensures CheckAll(zip.children[8..], 14, 1) == CheckAll(zip.children[10..], 17, 1)
  {
    var cs := zip.children;
    OdgChecked();
    CheckAllStep(cs, 8, 14, 1);
    OdfChecked();
    CheckAllStep(cs, 9, 16, 1);
  }

  lemma ZipChildren()
    ensures CheckAll(zip.children, 3, 1) == 17
  {
    assert Entry(Zip) == (2, "application/zip");
    ZipChildren0();
    ZipChildren2();
    ZipChildren4();
    ZipChildren6();
    ZipChildren8();
    var cs := zip.children;
    assert cs[10..] == [];
    assert cs[0..] == cs;
  }

  lemma ZipChecked()
    ensures Check(zip, 2, 2) == 17
  {
    ZipIndexed();
    ZipChildren();
  }

  lemma XlsxChecked()
    ensures Check(xlsx, 3, 1) == 4
  {
    assert Entry(Xlsx) == (3, "application/vnd.openxmlformats-officedocument.spreadsheetml.sheet");
  }

  lemma DocxChecked()
    ensures Check(docx, 4, 1) == 5
  {
    assert Entry(Docx) == (4, "application/vnd.openxmlformats-officedocument.wordprocessingml.document");
  }

  lemma PptxChecked()
    ensures Check(pptx, 5, 1) == 6
  {
    assert Entry(Pptx) == (5, "application/vnd.openxmlformats-officedocument.presentationml.presentation");
  }

  lemma EpubChecked()
    ensures Check(epub, 6, 1) == 7
  {
    assert Entry(Epub) == (6, "application/epub+zip");
  }

  lemma JarChecked()
    ensures Check(jar, 7, 1) == 8
  {
    assert Entry(Jar) == (7, "application/jar");
  }

  lemma OdtIndexed()
    ensures AliasesIndexed(odt)
  {
    assert AliasIndex("application/x-vnd.oasis.opendocument.text") == Some(Odt);
  }

  lemma OdtChecked()
    ensures Check(odt, 8, 1) == 10
  {
    assert Entry(Odt) == (8, "application/vnd.oasis.opendocument.text");
    OdtIndexed();
    var cs := odt.children;
    OttChecked();
    CheckAllStep(cs, 0, 9, 0);
    assert cs[1..] == [];
    assert cs[0..] == cs;
  }

  lemma OttIndexed()
    ensures AliasesIndexed(ott)
  {
    assert AliasIndex("application/x-vnd.oasis.opendocument.text-template") == Some(Ott);
  }

  lemma OttChecked()
    ensures Check(ott, 9, 0) == 10
  {
    assert Entry(Ott) == (9, "application/vnd.oasis.opendocument.text-template");
    OttIndexed();
  }

  lemma OdsIndexed()
    ensures AliasesIndexed(ods)
  {
    assert AliasIndex("application/x-vnd.oasis.opendocument.spreadsheet") == Some(Ods);
  }

  lemma OdsChecked()
    ensures Check(ods, 10, 1) == 12
  {
    assert Entry(Ods) == (10, "application/vnd.oasis.opendocument.spreadsheet");
    OdsIndexed();
    var cs := ods.children;
    OtsChecked();
    CheckAllStep(cs, 0, 11, 0);
    assert cs[1..] == [];
    assert cs[0..] == cs;
  }

  lemma OtsIndexed()
    ensures AliasesIndexed(ots)
  {
    assert AliasIndex("application/x-vnd.oasis.opendocument.spreadsheet-template") == Some(Ots);
  }

  lemma OtsChecked()
    ensures Check(ots, 11, 0) == 12
  {
    assert Entry(Ots) == (11, "application/vnd.oasis.opendocument.spreadsheet-template");
    OtsIndexed();
  }

  lemma OdpIndexed()
    ensures AliasesIndexed(odp)
  {
    assert AliasIndex("application/x-vnd.oasis.opendocument.presentation") == Some(Odp);
  }

  lemma OdpChecked()
    ensures Check(odp, 12, 1) == 14
  {
    assert Entry(Odp) == (12, "application/vnd.oasis.opendocument.presentation");
    OdpIndexed();
    var cs := odp.children;
    OtpChecked();
    CheckAllStep(cs, 0, 13, 0);
    assert cs[1..] == [];
    assert cs[0..] == cs;
  }

  lemma OtpIndexed()
    ensures AliasesIndexed(otp)
  {
    assert AliasIndex("application/x-vnd.oasis.opendocument.presentation-template") == Some(Otp);
  }

  lemma OtpChecked()
    ensures Check(otp, 13, 0) == 14
  {
    assert Entry(Otp) == (13, "application/vnd.oasis.opendocument.presentation-template");
    OtpIndexed();
  }

  lemma OdgIndexed()
    ensures AliasesIndexed(odg)
  {
    assert AliasIndex("application/x-vnd.oasis.opendocument.graphics") == Some(Odg);
  }

  lemma OdgChecked()
    ensures Check(odg, 14, 1) == 16
  {
    assert Entry(Odg) == (14, "application/vnd.oasis.opendocument.graphics");
    OdgIndexed();
    var cs := odg.children;
    OtgChecked();
    CheckAllStep(cs, 0, 15, 0);
    assert cs[1..] == [];
    assert cs[0..] == cs;
  }

  lemma OtgIndexed()
    ensures AliasesIndexed(otg)
  {
    assert AliasIndex("application/x-vnd.oasis.opendocument.graphics-template") == Some(Otg);
  }

  lemma OtgChecked()
    ensures Check(otg, 15, 0) == 16
  {
    assert Entry(Otg) == (15, "application/vnd.oasis.opendocument.graphics-template");
    OtgIndexed();
  }

  lemma OdfIndexed()
    ensures AliasesIndexed(odf)
  {
    assert AliasIndex("application/x-vnd.oasis.opendocument.formula") == Some(Odf);
  }

  lemma OdfChecked()
    ensures Check(odf, 16, 1) == 17
  {
    assert Entry(Odf) == (16, "application/vnd.oasis.opendocument.formula");
    OdfIndexed();
  }

  lemma PdfIndexed()
    ensures AliasesIndexed(pdf)
  {
    assert AliasIndex("application/x-pdf") == Some(Pdf);
  }

  lemma PdfChecked()
    ensures Check(pdf, 17, 2) == 18
  {
    assert Entry(Pdf) == (17, "application/pdf");
    PdfIndexed();
  }

  lemma OleChildren0()
    ensures CheckAll(ole.children[0..], 19, 1) == CheckAll(ole.children[2..], 21, 1)
  {
    var cs := ole.children;
    XlsChecked();
    CheckAllStep(cs, 0, 19, 1);
    PubChecked();
    CheckAllStep(cs, 1, 20, 1);
  }

  lemma OleChildren2()
    ensures CheckAll(ole.children[2..], 21, 1) == CheckAll(ole.children[4..], 23, 1)
  {
    var cs := ole.children;
    PptChecked();
    CheckAllStep(cs, 2, 21, 1);
    DocChecked();
    CheckAllStep(cs, 3, 22, 1);
  }

  lemma OleChildren()
    ensures CheckAll(ole.children, 19, 1) == 23
  {
    assert Entry(Ole) == (18, "application/x-ole-storage");
    OleChildren0();
    OleChildren2();
    var cs := ole.children;
    assert cs[4..] == [];
    assert cs[0..] == cs;
  }

  lemma OleChecked()
    ensures Check(ole, 18, 2) == 23
  {
    OleChildren();
  }

  lemma XlsIndexed()
    ensures AliasesIndexed(xls)
  {
    assert AliasIndex("application/msexcel") == Some(Xls);
  }

  lemma XlsChecked()
    ensures Check(xls, 19, 1) == 20
  {
    assert Entry(Xls) == (19, "application/vnd.ms-excel");
    XlsIndexed();
  }

  lemma PubChecked()
    ensures Check(pub, 20, 1) == 21
  {
    assert Entry(Pub) == (20, "application/vnd.ms-publisher");
  }

  lemma PptIndexed()
    ensures AliasesIndexed(ppt)
  {
    assert AliasIndex("application/mspowerpoint") == Some(Ppt);
  }

  lemma PptChecked()
    ensures Check(ppt, 21, 1) == 22
  {
    assert Entry(Ppt) == (21, "application/vnd.ms-powerpoint");
    PptIndexed();
  }

  lemma DocIndexed()
    ensures AliasesIndexed(doc)
  {
    assert AliasIndex("application/vnd.ms-word") == Some(Doc);
  }

  lemma DocChecked()
    ensures Check(doc, 22, 1) == 23
  {
    assert Entry(Doc) == (22, "application/msword");
    DocIndexed();
  }

  lemma PsChecked()
    ensures Check(ps, 23, 2) == 24
  {
    assert Entry(Ps) == (23, "application/postscript");
  }

  lemma PsdIndexed()
    ensures AliasesIndexed(psd)
  {
    assert AliasIndex("image/x-psd") == Some(Psd);
    assert AliasIndex("application/photoshop") == Some(Psd);
  }

  lemma PsdChecked()
    ensures Check(psd, 24, 2) == 25
  {
    assert Entry(Psd) == (24, "image/vnd.adobe.photoshop");
    PsdIndexed();
  }

  lemma OggIndexed()
    ensures AliasesIndexed(ogg)
  {
    assert AliasIndex("application/x-ogg") == Some(Ogg);
  }

  lemma OggChecked()
    ensures Check(ogg, 25, 2) == 28
  {
    assert Entry(Ogg) == (25, "application/ogg");
    OggIndexed();
    var cs := ogg.children;
    OggAudioChecked();
    CheckAllStep(cs, 0, 26, 1);
    OggVideoChecked();
    CheckAllStep(cs, 1, 27, 1);
    assert cs[2..] == [];
    assert cs[0..] == cs;
  }

  lemma OggAudioChecked()
    ensures Check(oggAudio, 26, 1) == 27
  {
    assert Entry(OggAudio) == (26, "audio/ogg");
  }

  lemma OggVideoChecked()
    ensures Check(oggVideo, 27, 1) == 28
  {
    assert Entry(OggVideo) == (27, "video/ogg");
  }

  lemma PngChecked()
    ensures Check(png, 28, 2) == 29
  {
    assert Entry(Png) == (28, "image/png");
  }

  lemma JpgChecked()
    ensures Check(jpg, 29, 2) == 30
  {
    assert Entry(Jpg) == (29, "image/jpeg");
  }

  lemma Jp2Checked()
    ensures Check(jp2, 30, 2) == 31
  {
    assert Entry(Jp2) == (30, "image/jp2");
  }

  lemma JpxChecked()
    ensures Check(jpx, 31, 2) == 32
  {
    assert Entry(Jpx) == (31, "image/jpx");
  }

  lemma JpmIndexed()
    ensures AliasesIndexed(jpm)
  {
    assert AliasIndex("video/jpm") == Some(Jpm);
  }

  lemma JpmChecked()
    ensures Check(jpm, 32, 2) == 33
  {
    assert Entry(Jpm) == (32, "image/jpm");
    JpmIndexed();
  }

  lemma GifChecked()
    ensures Check(gif, 33, 2) == 34
  {
    assert Entry(Gif) == (33, "image/gif");
  }

  lemma WebpChecked()
    ensures Check(webp, 34, 2) == 35
  {
    assert Entry(Webp) == (34, "image/webp");
  }

  lemma ExeChecked()
    ensures Check(exe, 35, 2) == 36
  {
    assert Entry(Exe) == (35, "application/vnd.microsoft.portable-executable");
  }

  lemma ElfChildren0()
    ensures CheckAll(elf.children[0..], 37, 1) == CheckAll(elf.children[2..], 39, 1)
  {
    var cs := elf.children;
    ElfObjChecked();
    CheckAllStep(cs, 0, 37, 1);
    ElfExeChecked();
    CheckAllStep(cs, 1, 38, 1);
  }

  lemma ElfChildren2()
    ensures CheckAll(elf.children[2..], 39, 1) == CheckAll(elf.children[4..], 41, 1)
  {
    var cs := elf.children;
    ElfLibChecked();
    CheckAllStep(cs, 2, 39, 1);
    ElfDumpChecked();
    CheckAllStep(cs, 3, 40, 1);
  }

  lemma ElfChildren()
    ensures CheckAll(elf.children, 37, 1) == 41
  {
    assert Entry(Elf) == (36, "application/x-elf");
    ElfChildren0();
    ElfChildren2();
    var cs := elf.children;
    assert cs[4..] == [];
    assert cs[0..] == cs;
  }

  lemma ElfChecked()
    ensures Check(elf, 36, 2) == 41
  {
    ElfChildren();
  }

  lemma ElfObjChecked()
    ensures Check(elfObj, 37, 1) == 38
  {
    assert Entry(ElfObj) == (37, "application/x-object");
  }

  lemma ElfExeChecked()
    ensures Check(elfExe, 38, 1) == 39
  {
    assert Entry(ElfExe) == (38, "application/x-executable");
  }

  lemma ElfLibChecked()
    ensures Check(elfLib, 39, 1) == 40
  {
    assert Entry(ElfLib) == (39, "application/x-sharedlib");
  }

  lemma ElfDumpChecked()
    ensures Check(elfDump, 40, 1) == 41
  {
    assert Entry(ElfDump) == (40, "application/x-coredump");
  }

  lemma ArIndexed()
    ensures AliasesIndexed(ar)
  {
    assert AliasIndex("application/x-unix-archive") == Some(Ar);
  }

  lemma ArChecked()
    ensures Check(ar, 41, 2) == 43
  {
    assert Entry(Ar) == (41, "application/x-archive");
    ArIndexed();
    var cs := ar.children;
    DebChecked();
    CheckAllStep(cs, 0, 42, 1);
    assert cs[1..] == [];
    assert cs[0..] == cs;
  }

  lemma DebChecked()
    ensures Check(deb, 42, 1) == 43
  {
    assert Entry(Deb) == (42, "application/vnd.debian.binary-package");
  }

  lemma TarChecked()
    ensures Check(tar, 43, 2) == 44
  {
    assert Entry(Tar) == (43, "application/x-tar");
  }

  lemma XarChecked()
    ensures Check(xar, 44, 2) == 45
  {
    assert Entry(Xar) == (44, "application/x-xar");
  }

  lemma Bz2Checked()
    ensures Check(bz2, 45, 2) == 46
  {
    assert Entry(Bz2) == (45, "application/x-bzip2");
  }

  lemma FitsChecked()
    ensures Check(fits, 46, 2) == 47
  {
    assert Entry(Fits) == (46, "application/fits");
  }

  lemma TiffChecked()
    ensures Check(tiff, 47, 2) == 48
  {
    assert Entry(Tiff) == (47, "image/tiff");
  }

  lemma BmpIndexed()
    ensures AliasesIndexed(bmp)
  {
    assert AliasIndex("image/x-bmp") == Some(Bmp);
    assert AliasIndex("image/x-ms-bmp") == Some(Bmp);
  }

  lemma BmpChecked()
    ensures Check(bmp, 48, 2) == 49
  {
    assert Entry(Bmp) == (48, "image/bmp");
    BmpIndexed();
  }

  lemma IcoChecked()
    ensures Check(ico, 49, 2) == 50
  {
    assert Entry(Ico) == (49, "image/x-icon");
  }

  lemma Mp3Indexed()
    ensures AliasesIndexed(mp3)
  {
    assert AliasIndex("audio/x-mpeg") == Some(Mp3);
    assert AliasIndex("audio/mp3") == Some(Mp3);
  }

  lemma Mp3Checked()
    ensures Check(mp3, 50, 2) == 51
  {
    assert Entry(Mp3) == (50, "audio/mpeg");
    Mp3Indexed();
  }

  lemma FlacChecked()
    ensures Check(flac, 51, 2) == 52
  {
    assert Entry(Flac) == (51, "audio/flac");
  }

  lemma MidiIndexed()
    ensures AliasesIndexed(midi)
  {
    assert AliasIndex("audio/mid") == Some(Midi);
    assert AliasIndex("audio/sp-midi") == Some(Midi);
    assert AliasIndex("audio/x-mid") == Some(Midi);
    assert AliasIndex("audio/x-midi") == Some(Midi);
  }

  lemma MidiChecked()
    ensures Check(midi, 52, 2) == 53
  {
    assert Entry(Midi) == (52, "audio/midi");
    MidiIndexed();
  }

  lemma ApeChecked()
    ensures Check(ape, 53, 2) == 54
  {
    assert Entry(Ape) == (53, "audio/ape");
  }

  lemma MusePackChecked()
    ensures Check(musePack, 54, 2) == 55
  {
    assert Entry(MusePack) == (54, "audio/musepack");
  }

  lemma AmrIndexed()
    ensures AliasesIndexed(amr)
  {
    assert AliasIndex("audio/amr-nb") == Some(Amr);
  }

  lemma AmrChecked()
    ensures Check(amr, 55, 2) == 56
  {
    assert Entry(Amr) == (55, "audio/amr");
    AmrIndexed();
  }

  lemma WavIndexed()
    ensures AliasesIndexed(wav)
  {
    assert AliasIndex("audio/x-wav") == Some(Wav);
    assert AliasIndex("audio/vnd.wave") == Some(Wav);
    assert AliasIndex("audio/wave") == Some(Wav);
  }

  lemma WavChecked()
    ensures Check(wav, 56, 2) == 57
  {
    assert Entry(Wav) == (56, "audio/wav");
    WavIndexed();
  }

  lemma AiffChecked()
    ensures Check(aiff, 57, 2) == 58
  {
    assert Entry(Aiff) == (57, "audio/aiff");
  }

  lemma AuChecked()
    ensures Check(au, 58, 2) == 59
  {
    assert Entry(Au) == (58, "audio/basic");
  }

  lemma MpegChecked()
    ensures Check(mpeg, 59, 2) == 60
  {
    assert Entry(Mpeg) == (59, "video/mpeg");
  }

  lemma QuickTimeChecked()
    ensures Check(quickTime, 60, 2) == 61
  {
    assert Entry(QuickTime) == (60, "video/quicktime");
  }

  lemma MqvChecked()
    ensures Check(mqv, 61, 2) == 62
  {
    assert Entry(Mqv) == (61, "video/quicktime");
  }

  lemma Mp4Checked()
    ensures Check(mp4, 62, 2) == 63
  {
    assert Entry(Mp4) == (62, "video/mp4");
  }

  lemma WebMIndexed()
    ensures AliasesIndexed(webM)
  {
    assert AliasIndex("audio/webm") == Some(WebM);
  }

  lemma WebMChecked()
    ensures Check(webM, 63, 2) == 64
  {
    assert Entry(WebM) == (63, "video/webm");
    WebMIndexed();
  }

  lemma ThreeGPIndexed()
    ensures AliasesIndexed(threeGP)
  {
    assert AliasIndex("video/3gp") == Some(ThreeGP);
    assert AliasIndex("audio/3gpp") == Some(ThreeGP);
  }

  lemma ThreeGPChecked()
    ensures Check(threeGP, 64, 2) == 65
  {
    assert Entry(ThreeGP) == (64, "video/3gpp");
    ThreeGPIndexed();
  }

  lemma ThreeG2Indexed()
    ensures AliasesIndexed(threeG2)
  {
    assert AliasIndex("video/3g2") == Some(ThreeG2);
    assert AliasIndex("audio/3gpp2") == Some(ThreeG2);
  }

  lemma ThreeG2Checked()
    ensures Check(threeG2, 65, 2) == 66
  {
    assert Entry(ThreeG2) == (65, "video/3gpp2");
    ThreeG2Indexed();
  }

  lemma AviIndexed()
    ensures AliasesIndexed(avi)
  {
    assert AliasIndex("video/avi") == Some(Avi);
    assert AliasIndex("video/msvideo") == Some(Avi);
  }

  lemma AviChecked()
    ensures Check(avi, 66, 2) == 67
  {
    assert Entry(Avi) == (66, "video/x-msvideo");
    AviIndexed();
  }

  lemma FlvChecked()
    ensures Check(flv, 67, 2) == 68
  {
    assert Entry(Flv) == (67, "video/x-flv");
  }

  lemma MkvChecked()
    ensures Check(mkv, 68, 2) == 69
  {
    assert Entry(Mkv) == (68, "video/x-matroska");
  }

  lemma AsfIndexed()
    ensures AliasesIndexed(asf)
  {
    assert AliasIndex("video/asf") == Some(Asf);
    assert AliasIndex("video/x-ms-wmv") == Some(Asf);
  }

  lemma AsfChecked()
    ensures Check(asf, 69, 2) == 70
  {
    assert Entry(Asf) == (69, "video/x-ms-asf");
    AsfIndexed();
  }

  lemma AacChecked()
    ensures Check(aac, 70, 2) == 71
  {
    assert Entry(Aac) == (70, "audio/aac");
  }

  lemma VocChecked()
    ensures Check(voc, 71, 2) == 72
  {
    assert Entry(Voc) == (71, "audio/x-unknown");
  }

  lemma AMp4Indexed()
    ensures AliasesIndexed(aMp4)
  {
    assert AliasIndex("audio/x-m4a") == Some(AMp4);
    assert AliasIndex("audio/x-mp4a") == Some(AMp4);
  }

  lemma AMp4Checked()
    ensures Check(aMp4, 72, 2) == 73
  {
    assert Entry(AMp4) == (72, "audio/mp4");
    AMp4Indexed();
  }

  lemma M4aChecked()
    ensures Check(m4a, 73, 2) == 74
  {
    assert Entry(M4a) == (73, "audio/x-m4a");
  }

  lemma TxtChildren0()
    ensures CheckAll(txt.children[0..], 75, 1) == CheckAll(txt.children[2..], 77, 1)
  {
    var cs := txt.children;
    HtmlChecked();
    CheckAllStep(cs, 0, 75, 1);
    SvgChecked();
    CheckAllStep(cs, 1, 76, 1);
  }

  lemma TxtChildren2()
    ensures CheckAll(txt.children[2..], 77, 1) == CheckAll(txt.children[4..], 90, 1)
  {
    var cs := txt.children;
    XmlChecked();
    CheckAllStep(cs, 2, 77, 1);
    PhpChecked();
    CheckAllStep(cs, 3, 89, 1);
  }

  lemma TxtChildren4()
    ensures CheckAll(txt.children[4..], 90, 1) == CheckAll(txt.children[6..], 92, 1)
  {
    var cs := txt.children;
    JsChecked();
    CheckAllStep(cs, 4, 90, 1);
    LuaChecked();
    CheckAllStep(cs, 5, 91, 1);
  }

  lemma TxtChildren6()
    ensures CheckAll(txt.children[6..], 92, 1) == CheckAll(txt.children[8..], 94, 1)
  {
    var cs := txt.children;
    PerlChecked();
    CheckAllStep(cs, 6, 92, 1);
    PythonChecked();
    CheckAllStep(cs, 7, 93, 1);
  }

  lemma TxtChildren8()
    ensures CheckAll(txt.children[8..], 94, 1) == CheckAll(txt.children[10..], 97, 1)
  {
    var cs := txt.children;
    JsonChecked();
    CheckAllStep(cs, 8, 94, 1);
    NdJsonChecked();
    CheckAllStep(cs, 9, 96, 1);
  }

  lemma TxtChildren10()
    ensures CheckAll(txt.children[10..], 97, 1) == CheckAll(txt.children[12..], 99, 1)
  {
    var cs := txt.children;
    RtfChecked();
    CheckAllStep(cs, 10, 97, 1);
    TclChecked();
    CheckAllStep(cs, 11, 98, 1);
  }

  lemma TxtChildren12()
    ensures CheckAll(txt.children[12..], 99, 1) == CheckAll(txt.children[14..], 101, 1)
  {
    var cs := txt.children;
    CsvChecked();
    CheckAllStep(cs, 12, 99, 1);
    TsvChecked();
    CheckAllStep(cs, 13, 100, 1);
  }

  lemma TxtChildren14()
    ensures CheckAll(txt.children[14..], 101, 1) == CheckAll(txt.children[16..], 103, 1)
  {
    var cs := txt.children;
    VCardChecked();
    CheckAllStep(cs, 14, 101, 1);
    ICalendarChecked();
    CheckAllStep(cs, 15, 102, 1);
  }

  lemma TxtChildren16()
    ensures CheckAll(txt.children[16..], 103, 1) == CheckAll(txt.children[17..], 104, 1)
  {
    var cs := txt.children;
    WarcChecked();
    CheckAllStep(cs, 16, 103, 1);
  }

  lemma TxtChildren()
    ensures CheckAll(txt.children, 75, 1) == 104
  {
    assert Entry(Txt) == (74, "text/plain");
    TxtChildren0();
    TxtChildren2();
    TxtChildren4();
    TxtChildren6();
    TxtChildren8();
    TxtChildren10();
    TxtChildren12();
    TxtChildren14();
    TxtChildren16();
    var cs := txt.children;
    assert cs[17..] == [];
    assert cs[0..] == cs;
  }

  lemma TxtChecked()
    ensures Check(txt, 74, 2) == 104
  {
    TxtChildren();
  }

  lemma HtmlChecked()
    ensures Check(html, 75, 1) == 76
  {
    assert Entry(Html) == (75, "text/html; charset=utf-8");
  }

  lemma SvgChecked()
    ensures Check(svg, 76, 1) == 77
  {
    assert Entry(Svg) == (76, "image/svg+xml");
  }

  lemma XmlChildren0()
    ensures CheckAll(xml.children[0..], 78, 0) == CheckAll(xml.children[2..], 80, 0)
  {
    var cs := xml.children;
    RssChecked();
    CheckAllStep(cs, 0, 78, 0);
    AtomChecked();
    CheckAllStep(cs, 1, 79, 0);
  }

  lemma XmlChildren2()
    ensures CheckAll(xml.children[2..], 80, 0) == CheckAll(xml.children[4..], 82, 0)
  {
    var cs := xml.children;
    X3dChecked();
    CheckAllStep(cs, 2, 80, 0);
    KmlChecked();
    CheckAllStep(cs, 3, 81, 0);
  }

  lemma XmlChildren4()
    ensures CheckAll(xml.children[4..], 82, 0) == CheckAll(xml.children[6..], 84, 0)
  {
    var cs := xml.children;
    XliffChecked();
    CheckAllStep(cs, 4, 82, 0);
    ColladaChecked();
    CheckAllStep(cs, 5, 83, 0);
  }

  lemma XmlChildren6()
    ensures CheckAll(xml.children[6..], 84, 0) == CheckAll(xml.children[8..], 86, 0)
  {
    var cs := xml.children;
    GmlChecked();
    CheckAllStep(cs, 6, 84, 0);
    GpxChecked();
    CheckAllStep(cs, 7, 85, 0);
  }

  lemma XmlChildren8()
    ensures CheckAll(xml.children[8..], 86, 0) == CheckAll(xml.children[10..], 88, 0)
  {
    var cs := xml.children;
    TcxChecked();
    CheckAllStep(cs, 8, 86, 0);
    AmfChecked();
    CheckAllStep(cs, 9, 87, 0);
  }

  lemma XmlChildren10()
    ensures CheckAll(xml.children[10..], 88, 0) == CheckAll(xml.children[11..], 89, 0)
  {
    var cs := xml.children;
    ThreemfChecked();
    CheckAllStep(cs, 10, 88, 0);
  }

  lemma XmlChildren()
    ensures CheckAll(xml.children, 78, 0) == 89
  {
    assert Entry(Xml) == (77, "text/xml; charset=utf-8");
    XmlChildren0();
    XmlChildren2();
    XmlChildren4();
    XmlChildren6();
    XmlChildren8();
    XmlChildren10();
    var cs := xml.children;
    assert cs[11..] == [];
    assert cs[0..] == cs;
  }

  lemma XmlChecked()
    ensures Check(xml, 77, 1) == 89
  {
    XmlChildren();
  }

  lemma RssIndexed()
    ensures AliasesIndexed(rss)
  {
    assert AliasIndex("text/rss") == Some(Rss);
  }

  lemma RssChecked()
    ensures Check(rss, 78, 0) == 79
  {
    assert Entry(Rss) == (78, "application/rss+xml");
    RssIndexed();
  }

  lemma AtomChecked()
    ensures Check(atom, 79, 0) == 80
  {
    assert Entry(Atom) == (79, "application/atom+xml");
  }

  lemma X3dChecked()
    ensures Check(x3d, 80, 0) == 81
  {
    assert Entry(X3d) == (80, "model/x3d+xml");
  }

  lemma KmlChecked()
    ensures Check(kml, 81, 0) == 82
  {
    assert Entry(Kml) == (81, "application/vnd.google-earth.kml+xml");
  }

  lemma XliffChecked()
    ensures Check(xliff, 82, 0) == 83
  {
    assert Entry(Xliff) == (82, "application/x-xliff+xml");
  }

  lemma ColladaChecked()
    ensures Check(collada, 83, 0) == 84
  {
    assert Entry(Collada) == (83, "model/vnd.collada+xml");
  }

  lemma GmlChecked()
    ensures Check(gml, 84, 0) == 85
  {
    assert Entry(Gml) == (84, "application/gml+xml");
  }

  lemma GpxChecked()
    ensures Check(gpx, 85, 0) == 86
  {
    assert Entry(Gpx) == (85, "application/gpx+xml");
  }

  lemma TcxChecked()
    ensures Check(tcx, 86, 0) == 87
  {
    assert Entry(Tcx) == (86, "application/vnd.garmin.tcx+xml");
  }

  lemma AmfChecked()
    ensures Check(amf, 87, 0) == 88
  {
    assert Entry(Amf) == (87, "application/x-amf");
  }

  lemma ThreemfChecked()
    ensures Check(threemf, 88, 0) == 89
  {
    assert Entry(Threemf) == (88, "application/vnd.ms-package.3dmanufacturing-3dmodel+xml");
  }

  lemma PhpChecked()
    ensures Check(php, 89, 1) == 90
  {
    assert Entry(Php) == (89, "text/x-php; charset=utf-8");
  }

  lemma JsIndexed()
    ensures AliasesIndexed(js)
  {
    assert AliasIndex("application/x-javascript") == Some(Js);
    assert AliasIndex("text/javascript") == Some(Js);
  }

  lemma JsChecked()
    ensures Check(js, 90, 1) == 91
  {
    assert Entry(Js) == (90, "application/javascript");
    JsIndexed();
  }

  lemma LuaChecked()
    ensures Check(lua, 91, 1) == 92
  {
    assert Entry(Lua) == (91, "text/x-lua");
  }

  lemma PerlChecked()
    ensures Check(perl, 92, 1) == 93
  {
    assert Entry(Perl) == (92, "text/x-perl");
  }

  lemma PythonChecked()
    ensures Check(python, 93, 1) == 94
  {
    assert Entry(Python) == (93, "application/x-python");
  }

  lemma JsonChecked()
    ensures Check(json, 94, 1) == 96
  {
    assert Entry(Json) == (94, "application/json");
    var cs := json.children;
    GeoJsonChecked();
    CheckAllStep(cs, 0, 95, 0);
    assert cs[1..] == [];
    assert cs[0..] == cs;
  }

  lemma GeoJsonChecked()
    ensures Check(geoJson, 95, 0) == 96
  {
    assert Entry(GeoJson) == (95, "application/geo+json");
  }

  lemma NdJsonChecked()
    ensures Check(ndJson, 96, 1) == 97
  {
    assert Entry(NdJson) == (96, "application/x-ndjson");
  }

  lemma RtfChecked()
    ensures Check(rtf, 97, 1) == 98
  {
    assert Entry(Rtf) == (97, "text/rtf");
  }

  lemma TclIndexed()
    ensures AliasesIndexed(tcl)
  {
    assert AliasIndex("application/x-tcl") == Some(Tcl);
  }

  lemma TclChecked()
    ensures Check(tcl, 98, 1) == 99
  {
    assert Entry(Tcl) == (98, "text/x-tcl");
    TclIndexed();
  }

  lemma CsvChecked()
    ensures Check(csv, 99, 1) == 100
  {
    assert Entry(Csv) == (99, "text/csv");
  }

  lemma TsvChecked()
    ensures Check(tsv, 100, 1) == 101
  {
    assert Entry(Tsv) == (100, "text/tab-separated-values");
  }

  lemma VCardChecked()
    ensures Check(vCard, 101, 1) == 102
  {
    assert Entry(VCard) == (101, "text/vcard");
  }

  lemma ICalendarChecked()
    ensures Check(iCalendar, 102, 1) == 103
  {
    assert Entry(ICalendar) == (102, "text/calendar");
  }

  lemma WarcChecked()
    ensures Check(warc, 103, 1) == 104
  {
    assert Entry(Warc) == (103, "application/warc");
  }

  lemma GzipIndexed()
    ensures AliasesIndexed(gzip)
  {
    assert AliasIndex("application/x-gzip") == Some(Gzip);
    assert AliasIndex("application/x-gunzip") == Some(Gzip);
    assert AliasIndex("application/gzipped") == Some(Gzip);
    assert AliasIndex("application/gzip-compressed") == Some(Gzip);
    assert AliasIndex("application/x-gzip-compressed") == Some(Gzip);
    assert AliasIndex("gzip/document") == Some(Gzip);
  }

  lemma GzipChecked()
    ensures Check(gzip, 104, 2) == 105
  {
    assert Entry(Gzip) == (104, "application/gzip");
    GzipIndexed();
  }

  lemma ClassFileChecked()
    ensures Check(classFile, 105, 2) == 106
  {
    assert Entry(Class) == (105, "application/x-java-applet; charset=binary");
  }

  lemma SwfChecked()
    ensures Check(swf, 106, 2) == 107
  {
    assert Entry(Swf) == (106, "application/x-shockwave-flash");
  }

  lemma CrxChecked()
    ensures Check(crx, 107, 2) == 108
  {
    assert Entry(Crx) == (107, "application/x-chrome-extension");
  }

  lemma WoffChecked()
    ensures Check(woff, 108, 2) == 109
  {
    assert Entry(Woff) == (108, "font/woff");
  }

  lemma Woff2Checked()
    ensures Check(woff2, 109, 2) == 110
  {
    assert Entry(Woff2) == (109, "font/woff2");
  }

  lemma OtfChecked()
    ensures Check(otf, 110, 2) == 111
  {
    assert Entry(Otf) == (110, "font/otf");
  }

  lemma EotChecked()
    ensures Check(eot, 111, 2) == 112
  {
    assert Entry(Eot) == (111, "application/vnd.ms-fontobject");
  }

  lemma WasmChecked()
    ensures Check(wasm, 112, 2) == 113
  {
    assert Entry(Wasm) == (112, "application/wasm");
  }

  lemma ShxChecked()
    ensures Check(shx, 113, 2) == 115
  {
    assert Entry(Shx) == (113, "application/octet-stream");
    var cs := shx.children;
    ShpChecked();
    CheckAllStep(cs, 0, 114, 1);
    assert cs[1..] == [];
    assert cs[0..] == cs;
  }

  lemma ShpChecked()
    ensures Check(shp, 114, 1) == 115
  {
    assert Entry(Shp) == (114, "application/octet-stream");
  }

  lemma DbfChecked()
    ensures Check(dbf, 115, 2) == 116
  {
    assert Entry(Dbf) == (115, "application/x-dbf");
  }

  lemma DcmChecked()
    ensures Check(dcm, 116, 2) == 117
  {
    assert Entry(Dcm) == (116, "application/dicom");
  }

  lemma RarIndexed()
    ensures AliasesIndexed(rar)
  {
    assert AliasIndex("application/x-rar") == Some(Rar);
  }

  lemma RarChecked()
    ensures Check(rar, 117, 2) == 118
  {
    assert Entry(Rar) == (117, "application/x-rar-compressed");
    RarIndexed();
  }

  lemma DjvuChecked()
    ensures Check(djvu, 118, 2) == 119
  {
    assert Entry(DjVu) == (118, "image/vnd.djvu");
  }

  lemma MobiChecked()
    ensures Check(mobi, 119, 2) == 120
  {
    assert Entry(Mobi) == (119, "application/x-mobipocket-ebook");
  }

  lemma LitChecked()
    ensures Check(lit, 120, 2) == 121
  {
    assert Entry(Lit) == (120, "application/x-ms-reader");
  }

  lemma BpgChecked()
    ensures Check(bpg, 121, 2) == 122
  {
    assert Entry(Bpg) == (121, "image/bpg");
  }

  lemma Sqlite3Checked()
    ensures Check(sqlite3, 122, 2) == 123
  {
    assert Entry(Sqlite) == (122, "application/x-sqlite3");
  }

  lemma DwgIndexed()
    ensures AliasesIndexed(dwg)
  {
    assert AliasIndex("image/x-dwg") == Some(Dwg);
    assert AliasIndex("application/acad") == Some(Dwg);
    assert AliasIndex("application/x-acad") == Some(Dwg);
    assert AliasIndex("application/autocad_dwg") == Some(Dwg);
    assert AliasIndex("application/dwg") == Some(Dwg);
    assert AliasIndex("application/x-dwg") == Some(Dwg);
    assert AliasIndex("application/x-autocad") == Some(Dwg);
    assert AliasIndex("drawing/dwg") == Some(Dwg);
  }

  lemma DwgChecked()
    ensures Check(dwg, 123, 2) == 124
  {
    assert Entry(Dwg) == (123, "image/vnd.dwg");
    DwgIndexed();
  }

  lemma NesChecked()
    ensures Check(nes, 124, 2) == 125
  {
    assert Entry(Nes) == (124, "application/vnd.nintendo.snes.rom");
  }

  lemma MachoChecked()
    ensures Check(macho, 125, 2) == 126
  {
    assert Entry(MachO) == (125, "application/x-mach-binary");
  }

  lemma QcpChecked()
    ensures Check(qcp, 126, 2) == 127
  {
    assert Entry(Qcp) == (126, "audio/qcelp");
  }

  lemma IcnsChecked()
    ensures Check(icns, 127, 2) == 128
  {
    assert Entry(Icns) == (127, "image/x-icns");
  }

  lemma HeicChecked()
    ensures Check(heic, 128, 2) == 129
  {
    assert Entry(Heic) == (128, "image/heic");
  }

  lemma HeicSeqChecked()
    ensures Check(heicSeq, 129, 2) == 130
  {
    assert Entry(HeicSequence) == (129, "image/heic-sequence");
  }

  lemma HeifChecked()
    ensures Check(heif, 130, 2) == 131
  {
    assert Entry(Heif) == (130, "image/heif");
  }

  lemma HeifSeqChecked()
    ensures Check(heifSeq, 131, 2) == 132
  {
    assert Entry(HeifSequence) == (131, "image/heif-sequence");
  }

  lemma MrcChecked()
    ensures Check(mrc, 132, 2) == 133
  {
    assert Entry(Marc) == (132, "application/marc");
  }

  lemma MdbChecked()
    ensures Check(mdb, 133, 2) == 134
  {
    assert Entry(MsAccessMdb) == (133, "application/x-msaccess");
  }

  lemma AccdbChecked()
    ensures Check(accdb, 134, 2) == 135
  {
    assert Entry(MsAccessAce) == (134, "application/x-msaccess");
  }

  lemma ZstdChecked()
    ensures Check(zstd, 135, 2) == 136
  {
    assert Entry(Zstd) == (135, "application/zstd");
  }

  /** Every node of the configured tree carries its own signature. */
  lemma TreeUnique()
    ensures Unique(Bag(root))
  {
    RootChecked();
    CheckSound(root, 0, 3);
  }

  /** The configured tree has 136 nodes. */
  lemma TreeSize()
    ensures |Flatten(root)| == 136
  {
    RootChecked();
    CheckSound(root, 0, 3);
  }

  /** No node of the configured tree lies more than three levels below the root. */
  lemma TreeLow()
    ensures Height(root) <= 3
  {
    RootChecked();
    CheckSound(root, 0, 3);
  }

  /** Every alias in the configured tree is indexed against the node that declares it. */
  lemma TreeIndexed()
    ensures forall m | m in Flatten(root) :: AliasesIndexed(m)
  {
    RootChecked();
    CheckSound(root, 0, 3);
  }

  /** No canonical type in the configured tree but m4a's is indexed as an alias. */
  lemma TreeMimes()
    ensures forall m | m in Flatten(root) :: MimeUnclaimed(m)
  {
    RootChecked();
    CheckSound(root, 0, 3);
    forall m | m in Flatten(root) ensures MimeUnclaimed(m) {
      MimesUnclaimed(m.sig);
    }
  }
}
