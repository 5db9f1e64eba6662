/**
 * The classification tree as configured in tree.go: a rooted, ordered tree
 * whose root accepts every buffer and whose children are tried in the order
 * in which they are listed.
 */
module Tree {
  import opened Matchers
  import opened Nodes

  // tree.go:8
  const root := Node("application/octet-stream", "",
    [], True,
    [sevenZ, zip, pdf, ole, ps, psd, ogg, png, jpg, jp2, jpx, jpm, gif, webp, exe, elf] +
    [ar, tar, xar, bz2, fits, tiff, bmp, ico, mp3, flac, midi, ape, musePack, amr] +
    [wav, aiff, au, mpeg, quickTime, mqv, mp4, webM, threeGP, threeG2, avi, flv] +
    [mkv, asf, aac, voc, aMp4, m4a, txt, gzip, classFile, swf, crx, woff, woff2, otf] +
    [eot, wasm, shx, dbf, dcm, rar, djvu, mobi, lit, bpg, sqlite3, dwg, nes, macho] +
    [qcp, icns, heic, heicSeq, heif, heifSeq, mrc, mdb, accdb, zstd])
  // tree.go:19
  const gzip := Node("application/gzip", "gz",
    ["application/x-gzip", "application/x-gunzip", "application/gzipped",
     "application/gzip-compressed", "application/x-gzip-compressed", "gzip/document"],
    Gzip,
    [])
  // tree.go:21
  const sevenZ := Node("application/x-7z-compressed", "7z", [], SevenZ, [])
  // tree.go:22
  const zip := Node("application/zip", "zip",
    ["application/x-zip", "application/x-zip-compressed"],
    Zip,
    [xlsx, docx, pptx, epub, jar, odt, ods, odp, odg, odf])
  // tree.go:24
  const tar := Node("application/x-tar", "tar", [], Tar, [])
  // tree.go:25
  const xar := Node("application/x-xar", "xar", [], Xar, [])
  // tree.go:26
  const bz2 := Node("application/x-bzip2", "bz2", [], Bz2, [])
  // tree.go:27
  const pdf := Node("application/pdf", "pdf", ["application/x-pdf"], Pdf, [])
  // tree.go:29
  const xlsx := Node("application/vnd.openxmlformats-officedocument.spreadsheetml.sheet", "xlsx",
    [], Xlsx,
    [])
  // tree.go:30
  const docx := Node("application/vnd.openxmlformats-officedocument.wordprocessingml.document", "docx",
    [], Docx,
    [])
  // tree.go:31
  const pptx := Node("application/vnd.openxmlformats-officedocument.presentationml.presentation", "pptx",
    [], Pptx,
    [])
  // tree.go:32
  const epub := Node("application/epub+zip", "epub", [], Epub, [])
  // tree.go:33
  const jar := Node("application/jar", "jar", [], Jar, [])
  // tree.go:34
  const ole := Node("application/x-ole-storage", "", [], Ole, [xls, pub, ppt, doc])
  // tree.go:35
  const doc := Node("application/msword", "doc", ["application/vnd.ms-word"], Doc, [])
  // tree.go:37
  const ppt := Node("application/vnd.ms-powerpoint", "ppt", ["application/mspowerpoint"], Ppt, [])
  // tree.go:39
  const pub := Node("application/vnd.ms-publisher", "pub", [], Pub, [])
  // tree.go:40
  const xls := Node("application/vnd.ms-excel", "xls", ["application/msexcel"], Xls, [])
  // tree.go:42
  const ps := Node("application/postscript", "ps", [], Ps, [])
  // tree.go:43
  const fits := Node("application/fits", "fits", [], Fits, [])
  // tree.go:44
  const ogg := Node("application/ogg", "ogg", ["application/x-ogg"], Ogg, [oggAudio, oggVideo])
  // tree.go:46
  const oggAudio := Node("audio/ogg", "oga", [], OggAudio, [])
  // tree.go:47
  const oggVideo := Node("video/ogg", "ogv", [], OggVideo, [])
  // tree.go:48
  const txt := Node("text/plain", "txt",
    [], Txt,
    [html, svg, xml, php, js, lua, perl, python, json, ndJson, rtf, tcl, csv, tsv, vCard, iCalendar,
     warc])
  // tree.go:49
  const xml := Node("text/xml; charset=utf-8", "xml",
    [], Xml,
    [rss, atom, x3d, kml, xliff, collada, gml, gpx, tcx, amf, threemf])
  // tree.go:50
  const json := Node("application/json", "json", [], Json, [geoJson])
  // tree.go:51
  const csv := Node("text/csv", "csv", [], Csv, [])
  // tree.go:52
  const tsv := Node("text/tab-separated-values", "tsv", [], Tsv, [])
  // tree.go:53
  const geoJson := Node("application/geo+json", "geojson", [], GeoJson, [])
  // tree.go:54
  const ndJson := Node("application/x-ndjson", "ndjson", [], NdJson, [])
  // tree.go:55
  const html := Node("text/html; charset=utf-8", "html", [], Html, [])
  // tree.go:56
  const php := Node("text/x-php; charset=utf-8", "php", [], Php, [])
  // tree.go:57
  const rtf := Node("text/rtf", "rtf", [], Rtf, [])
  // tree.go:58
  const js := Node("application/javascript", "js", ["application/x-javascript", "text/javascript"], Js, [])
  // tree.go:60
  const lua := Node("text/x-lua", "lua", [], Lua, [])
  // tree.go:61
  const perl := Node("text/x-perl", "pl", [], Perl, [])
  // tree.go:62
  const python := Node("application/x-python", "py", [], Python, [])
  // tree.go:63
  const tcl := Node("text/x-tcl", "tcl", ["application/x-tcl"], Tcl, [])
  // tree.go:65
  const vCard := Node("text/vcard", "vcf", [], VCard, [])
  // tree.go:66
  const iCalendar := Node("text/calendar", "ics", [], ICalendar, [])
  // tree.go:67
  const svg := Node("image/svg+xml", "svg", [], Svg, [])
  // tree.go:68
  const rss := Node("application/rss+xml", "rss", ["text/rss"], Rss, [])
  // tree.go:70
  const atom := Node("application/atom+xml", "atom", [], Atom, [])
  // tree.go:71
  const x3d := Node("model/x3d+xml", "x3d", [], X3d, [])
  // tree.go:72
  const kml := Node("application/vnd.google-earth.kml+xml", "kml", [], Kml, [])
  // tree.go:73
  const xliff := Node("application/x-xliff+xml", "xlf", [], Xliff, [])
  // tree.go:74
  const collada := Node("model/vnd.collada+xml", "dae", [], Collada, [])
  // tree.go:75
  const gml := Node("application/gml+xml", "gml", [], Gml, [])
  // tree.go:76
  const gpx := Node("application/gpx+xml", "gpx", [], Gpx, [])
  // tree.go:77
  const tcx := Node("application/vnd.garmin.tcx+xml", "tcx", [], Tcx, [])
  // tree.go:78
  const amf := Node("application/x-amf", "amf", [], Amf, [])
  // tree.go:79
  const threemf := Node("application/vnd.ms-package.3dmanufacturing-3dmodel+xml", "3mf", [], Threemf, [])
  // tree.go:80
  const png := Node("image/png", "png", [], Png, [])
  // tree.go:81
  const jpg := Node("image/jpeg", "jpg", [], Jpg, [])
  // tree.go:82
  const jp2 := Node("image/jp2", "jp2", [], Jp2, [])
  // tree.go:83
  const jpx := Node("image/jpx", "jpf", [], Jpx, [])
  // tree.go:84
  const jpm := Node("image/jpm", "jpm", ["video/jpm"], Jpm, [])
  // tree.go:86
  const bpg := Node("image/bpg", "bpg", [], Bpg, [])
  // tree.go:87
  const gif := Node("image/gif", "gif", [], Gif, [])
  // tree.go:88
  const webp := Node("image/webp", "webp", [], Webp, [])
  // tree.go:89
  const tiff := Node("image/tiff", "tiff", [], Tiff, [])
  // tree.go:90
  const bmp := Node("image/bmp", "bmp", ["image/x-bmp", "image/x-ms-bmp"], Bmp, [])
  // tree.go:92
  const ico := Node("image/x-icon", "ico", [], Ico, [])
  // tree.go:93
  const icns := Node("image/x-icns", "icns", [], Icns, [])
  // tree.go:94
  const psd := Node("image/vnd.adobe.photoshop", "psd", ["image/x-psd", "application/photoshop"], Psd, [])
  // tree.go:96
  const heic := Node("image/heic", "heic", [], Heic, [])
  // tree.go:97
  const heicSeq := Node("image/heic-sequence", "heic", [], HeicSequence, [])
  // tree.go:98
  const heif := Node("image/heif", "heif", [], Heif, [])
  // tree.go:99
  const heifSeq := Node("image/heif-sequence", "heif", [], HeifSequence, [])
  // tree.go:100
  const mp3 := Node("audio/mpeg", "mp3", ["audio/x-mpeg", "audio/mp3"], Mp3, [])
  // tree.go:102
  const flac := Node("audio/flac", "flac", [], Flac, [])
  // tree.go:103
  const midi := Node("audio/midi", "midi",
    ["audio/mid", "audio/sp-midi", "audio/x-mid", "audio/x-midi"],
    Midi,
    [])
  // tree.go:105
  const ape := Node("audio/ape", "ape", [], Ape, [])
  // tree.go:106
  const musePack := Node("audio/musepack", "mpc", [], MusePack, [])
  // tree.go:107
  const wav := Node("audio/wav", "wav", ["audio/x-wav", "audio/vnd.wave", "audio/wave"], Wav, [])
  // tree.go:109
  const aiff := Node("audio/aiff", "aiff", [], Aiff, [])
  // tree.go:110
  const au := Node("audio/basic", "au", [], Au, [])
  // tree.go:111
  const amr := Node("audio/amr", "amr", ["audio/amr-nb"], Amr, [])
  // tree.go:113
  const aac := Node("audio/aac", "aac", [], Aac, [])
  // tree.go:114
  const voc := Node("audio/x-unknown", "voc", [], Voc, [])
  // tree.go:115
  const aMp4 := Node("audio/mp4", "mp4", ["audio/x-m4a", "audio/x-mp4a"], AMp4, [])
  // tree.go:117
  const m4a := Node("audio/x-m4a", "m4a", [], M4a, [])
  // tree.go:118
  const mp4 := Node("video/mp4", "mp4", [], Mp4, [])
  // tree.go:119
  const webM := Node("video/webm", "webm", ["audio/webm"], WebM, [])
  // tree.go:121
  const mpeg := Node("video/mpeg", "mpeg", [], Mpeg, [])
  // tree.go:122
  const quickTime := Node("video/quicktime", "mov", [], QuickTime, [])
  // tree.go:123
  const mqv := Node("video/quicktime", "mqv", [], Mqv, [])
  // tree.go:124
  const threeGP := Node("video/3gpp", "3gp", ["video/3gp", "audio/3gpp"], ThreeGP, [])
  // tree.go:126
  const threeG2 := Node("video/3gpp2", "3g2", ["video/3g2", "audio/3gpp2"], ThreeG2, [])
  // tree.go:128
  const avi := Node("video/x-msvideo", "avi", ["video/avi", "video/msvideo"], Avi, [])
  // tree.go:130
  const flv := Node("video/x-flv", "flv", [], Flv, [])
  // tree.go:131
  const mkv := Node("video/x-matroska", "mkv", [], Mkv, [])
  // tree.go:132
  const asf := Node("video/x-ms-asf", "asf", ["video/asf", "video/x-ms-wmv"], Asf, [])
  // tree.go:134
  const classFile := Node("application/x-java-applet; charset=binary", "class", [], Class, [])
  // tree.go:135
  const swf := Node("application/x-shockwave-flash", "swf", [], Swf, [])
  // tree.go:136
  const crx := Node("application/x-chrome-extension", "crx", [], Crx, [])
  // tree.go:137
  const woff := Node("font/woff", "woff", [], Woff, [])
  // tree.go:138
  const woff2 := Node("font/woff2", "woff2", [], Woff2, [])
  // tree.go:139
  const otf := Node("font/otf", "otf", [], Otf, [])
  // tree.go:140
  const eot := Node("application/vnd.ms-fontobject", "eot", [], Eot, [])
  // tree.go:141
  const wasm := Node("application/wasm", "wasm", [], Wasm, [])
  // tree.go:142
  const shp := Node("application/octet-stream", "shp", [], Shp, [])
  // tree.go:143
  const shx := Node("application/octet-stream", "shx", [], Shx, [shp])
  // tree.go:144
  const dbf := Node("application/x-dbf", "dbf", [], Dbf, [])
  // tree.go:145
  const exe := Node("application/vnd.microsoft.portable-executable", "exe", [], Exe, [])
  // tree.go:146
  const elf := Node("application/x-elf", "", [], Elf, [elfObj, elfExe, elfLib, elfDump])
  // tree.go:147
  const elfObj := Node("application/x-object", "", [], ElfObj, [])
  // tree.go:148
  const elfExe := Node("application/x-executable", "", [], ElfExe, [])
  // tree.go:149
  const elfLib := Node("application/x-sharedlib", "so", [], ElfLib, [])
  // tree.go:150
  const elfDump := Node("application/x-coredump", "", [], ElfDump, [])
  // tree.go:151
  const ar := Node("application/x-archive", "a", ["application/x-unix-archive"], Ar, [deb])
  // tree.go:153
  const deb := Node("application/vnd.debian.binary-package", "deb", [], Deb, [])
  // tree.go:154
  const dcm := Node("application/dicom", "dcm", [], Dcm, [])
  // tree.go:155
  const odt := Node("application/vnd.oasis.opendocument.text", "odt",
    ["application/x-vnd.oasis.opendocument.text"],
    Odt,
    [ott])
  // tree.go:157
  const ott := Node("application/vnd.oasis.opendocument.text-template", "ott",
    ["application/x-vnd.oasis.opendocument.text-template"],
    Ott,
    [])
  // tree.go:159
  const ods := Node("application/vnd.oasis.opendocument.spreadsheet", "ods",
    ["application/x-vnd.oasis.opendocument.spreadsheet"],
    Ods,
    [ots])
  // tree.go:161
  const ots := Node("application/vnd.oasis.opendocument.spreadsheet-template", "ots",
    ["application/x-vnd.oasis.opendocument.spreadsheet-template"],
    Ots,
    [])
  // tree.go:163
  const odp := Node("application/vnd.oasis.opendocument.presentation", "odp",
    ["application/x-vnd.oasis.opendocument.presentation"],
    Odp,
    [otp])
  // tree.go:165
  const otp := Node("application/vnd.oasis.opendocument.presentation-template", "otp",
    ["application/x-vnd.oasis.opendocument.presentation-template"],
    Otp,
    [])
  // tree.go:167
  const odg := Node("application/vnd.oasis.opendocument.graphics", "odg",
    ["application/x-vnd.oasis.opendocument.graphics"],
    Odg,
    [otg])
  // tree.go:169
  const otg := Node("application/vnd.oasis.opendocument.graphics-template", "otg",
    ["application/x-vnd.oasis.opendocument.graphics-template"],
    Otg,
    [])
  // tree.go:171
  const odf := Node("application/vnd.oasis.opendocument.formula", "odf",
    ["application/x-vnd.oasis.opendocument.formula"],
    Odf,
    [])
  // tree.go:173
  const rar := Node("application/x-rar-compressed", "rar", ["application/x-rar"], Rar, [])
  // tree.go:175
  const djvu := Node("image/vnd.djvu", "djvu", [], DjVu, [])
  // tree.go:176
  const mobi := Node("application/x-mobipocket-ebook", "mobi", [], Mobi, [])
  // tree.go:177
  const lit := Node("application/x-ms-reader", "lit", [], Lit, [])
  // tree.go:178
  const sqlite3 := Node("application/x-sqlite3", "sqlite", [], Sqlite, [])
  // tree.go:179
  const dwg := Node("image/vnd.dwg", "dwg",
    ["image/x-dwg", "application/acad", "application/x-acad", "application/autocad_dwg",
     "application/dwg", "application/x-dwg", "application/x-autocad", "drawing/dwg"],
    Dwg,
    [])
  // tree.go:181
  const warc := Node("application/warc", "warc", [], Warc, [])
  // tree.go:182
  const nes := Node("application/vnd.nintendo.snes.rom", "nes", [], Nes, [])
  // tree.go:183
  const macho := Node("application/x-mach-binary", "macho", [], MachO, [])
  // tree.go:184
  const qcp := Node("audio/qcelp", "qcp", [], Qcp, [])
  // tree.go:185
  const mrc := Node("application/marc", "mrc", [], Marc, [])
  // tree.go:186
  const mdb := Node("application/x-msaccess", "mdb", [], MsAccessMdb, [])
  // tree.go:187
  const accdb := Node("application/x-msaccess", "accdb", [], MsAccessAce, [])
  // tree.go:188
  const zstd := Node("application/zstd", "zst", [], Zstd, [])
}
