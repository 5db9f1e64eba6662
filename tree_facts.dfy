/**
 * What the configured tree of tree.go guarantees: the shape facts that follow
 * from the node-by-node audit (unique signatures, a single parent for every
 * node, disjoint alias lists, at most three levels below the root), the paths
 * along which particular types are found, and what detection does on it.
 */
module TreeFacts {
  import opened Wrappers
  import opened Matchers
  import opened Nodes
  import opened Tree
  import opened Audit
  import opened Detection

  // ---------------------------------------------------------------------------
  // Shape of the configured tree

  /** No node of the tree lies below itself; in particular no child carries True. */
  lemma BelowRoot(m: Node)
    requires m in FlattenAll(root.children)
    ensures m != root && m.sig != True
    ensures m in Flatten(root)
  {
    TreeUnique();
    NotBelowItself(root, m);
    if m.sig == True {
      SameSigSameNode(root, m, root);
    }
  }

  /** A child of the root is a node of the tree below the root. */
  lemma RootChild(c: Node)
    requires c in root.children
    ensures c in FlattenAll(root.children)
  {
    ChildFlattenInside(root.children, c, c);
  }

  /**
   * Every node except the root is listed in exactly one child list, once; the
   * root is listed in none.
   */
  lemma SingleParent(x: Node)
    requires x in Flatten(root)
    ensures ParentCount(root, x.sig) == (if x == root then 0 else 1)
  {
    TreeUnique();
    InSigs(Flatten(root), x);
    OccurrencesAreSlots(root, x.sig);
    if x != root && x.sig == True {
      SameSigSameNode(root, x, root);
    }
  }

  /** No alias string is attached to two different nodes of the tree. */
  lemma AliasesDisjoint(x: Node, y: Node, a: string)
    requires x in Flatten(root) && y in Flatten(root)
    requires a in x.aliases && a in y.aliases
    ensures x == y
  {
    TreeUnique();
    TreeIndexed();
    assert AliasIndex(a) == Some(x.sig) == Some(y.sig);
    SameSigSameNode(root, x, y);
  }

  /**
   * Equivalence is local: a node answers to an alias declared by another node
   * only if that alias happens to be its own canonical type.
   */
  lemma EquivalenceIsLocal(x: Node, y: Node, a: string)
    requires x in Flatten(root) && y in Flatten(root) && x != y
    requires a in y.aliases
    ensures Is(y, a)
    ensures Is(x, a) <==> x.mime == a
  {
    if a in x.aliases {
      AliasesDisjoint(x, y, a);
    }
  }

  /** The longest path below the root has exactly three steps: root, zip, odt, ott. */
  lemma TreeHeight()
    ensures Height(root) == 3
  {
    TreeLow();
    ZipUnderRoot();
    Chain4(root, zip, odt, ott);
    ChainHeight([root, zip, odt, ott]);
  }

  /** A chain that starts at the root and ends at the signature of q's end is q. */
  lemma OnlyPath(p: seq<Node>, q: seq<Node>)
    requires IsChain(p) && IsChain(q) && p[0] == root && q[0] == root
    requires p[|p| - 1].sig == q[|q| - 1].sig
    ensures p == q
  {
    TreeUnique();
    ChainUnique(p, q);
  }

  /** A path of three nodes, each a child of the one before, is a chain. */
  lemma Chain3(a: Node, b: Node, c: Node)
    requires b in a.children && c in b.children
    ensures IsChain([a, b, c])
  {
  }

  /** A path of four nodes, each a child of the one before, is a chain. */
  lemma Chain4(a: Node, b: Node, c: Node, d: Node)
    requires b in a.children && c in b.children && d in c.children
    ensures IsChain([a, b, c, d])
  {
  }

  /** zip is one of the root's children. */
  lemma ZipUnderRoot()
    ensures zip in root.children
  {
  }

  /** txt is one of the root's children. */
  lemma TxtUnderRoot()
    ensures txt in root.children
  {
  }

  /** The subtree under txt has unique signatures. */
  lemma TxtUnique()
    ensures Unique(Bag(txt))
  {
    TreeUnique();
    TxtUnderRoot();
    UniqueChild(root, txt);
  }

  /** xlsx and the OpenDocument types are found only below zip. */
  lemma OfficeBelowZip(p: seq<Node>)
    requires IsChain(p) && p[0] == root
    requires p[|p| - 1].sig in {Xlsx, Odt, Ods, Odp, Odg, Odf}
    ensures |p| == 3 && p[1] == zip
  {
    ZipUnderRoot();
    var x := p[|p| - 1].sig;
    var c := if x == Xlsx then xlsx
      else if x == Odt then odt
      else if x == Ods then ods
      else if x == Odp then odp
      else if x == Odg then odg
      else odf;
    Chain3(root, zip, c);
    OnlyPath(p, [root, zip, c]);
  }

  /** A template under document type d under zip is reached only along root, zip, d, t. */
  lemma BelowZipVia(p: seq<Node>, d: Node, t: Node)
    requires IsChain(p) && p[0] == root && p[|p| - 1].sig == t.sig
    requires d in zip.children && t in d.children
    ensures p == [root, zip, d, t]
    ensures |p| == 4 && p[1] == zip && p[2] == d && p[3].sig == t.sig
  {
    ZipUnderRoot();
    Chain4(root, zip, d, t);
    OnlyPath(p, [root, zip, d, t]);
  }

  /** Each OpenDocument template is a child of its document type, a child of zip. */
  lemma TemplatesPlaced()
    ensures odt in zip.children && ott in odt.children
    ensures ods in zip.children && ots in ods.children
    ensures odp in zip.children && otp in odp.children
    ensures odg in zip.children && otg in odg.children
  {
  }

  /** The OpenDocument templates are found only below zip and their document type. */
  lemma TemplatesBelowZip(p: seq<Node>)
    requires IsChain(p) && p[0] == root
    requires p[|p| - 1].sig in {Ott, Ots, Otp, Otg}
    ensures |p| == 4 && p[1] == zip
    ensures p[3].sig == Ott ==> p[2] == odt
    ensures p[3].sig == Ots ==> p[2] == ods
    ensures p[3].sig == Otp ==> p[2] == odp
    ensures p[3].sig == Otg ==> p[2] == odg
  {
    var x := p[|p| - 1].sig;
    TemplatesPlaced();
    if x == Ott {
      BelowZipVia(p, odt, ott);
    } else if x == Ots {
      BelowZipVia(p, ods, ots);
    } else if x == Otp {
      BelowZipVia(p, odp, otp);
    } else {
      BelowZipVia(p, odg, otg);
    }
  }

  /** Generic XML sits at root, txt, xml and GeoJSON at root, txt, json, geoJson. */
  lemma TextPaths(p: seq<Node>)
    requires IsChain(p) && p[0] == root
    ensures p[|p| - 1].sig == Xml ==> p == [root, txt, xml]
    ensures p[|p| - 1].sig == GeoJson ==> p == [root, txt, json, geoJson]
  {
    TxtUnderRoot();
    if p[|p| - 1].sig == Xml {
      Chain3(root, txt, xml);
      OnlyPath(p, [root, txt, xml]);
    } else if p[|p| - 1].sig == GeoJson {
      Chain4(root, txt, json, geoJson);
      OnlyPath(p, [root, txt, json, geoJson]);
    }
  }

  /** application/octet-stream names three different nodes: the root, shx and shp. */
  lemma OctetStreamShared()
    ensures root != shx && root != shp && shx != shp
    ensures root.mime == shx.mime == shp.mime == "application/octet-stream"
    ensures shp in shx.children
  {
  }

  /** application/x-msaccess names both mdb and accdb. */
  lemma MsAccessShared()
    ensures mdb != accdb && mdb.mime == accdb.mime == "application/x-msaccess"
    ensures mdb.extension != accdb.extension
  {
  }

  /** The extension heic belongs to both heic and heicSeq. */
  lemma HeicExtensionShared()
    ensures heic != heicSeq && heic.mime != heicSeq.mime
    ensures heic.extension == heicSeq.extension == "heic"
  {
  }

  /** ole and elf, like the root, have no extension. */
  lemma EmptyExtensions()
    ensures ole.extension == "" && elf.extension == "" && root.extension == ""
  {
  }

  /**
   * The type audio/x-m4a names two nodes: it is an alias of aMp4 and the
   * canonical type of m4a, two different siblings under the root.
   */
  lemma M4aTwice()
    ensures aMp4 in root.children && m4a in root.children && aMp4 != m4a
    ensures Is(aMp4, "audio/x-m4a") && Is(m4a, "audio/x-m4a")
    ensures aMp4.mime != "audio/x-m4a" && "audio/x-m4a" !in m4a.aliases
  {
  }

  /** A child of the root is a node of the tree. */
  lemma InTree(c: Node)
    requires c in root.children
    ensures c in Flatten(root)
  {
    RootChild(c);
    BelowRoot(c);
  }

  /**
   * The one node of the tree that answers to an alias declared by another
   * node is m4a: its canonical type audio/x-m4a is an alias of aMp4.
   */
  lemma ForeignAlias(x: Node, y: Node, a: string)
    requires x in Flatten(root) && y in Flatten(root) && x != y
    requires a in y.aliases
    ensures Is(x, a) <==> x == m4a && y == aMp4 && a == "audio/x-m4a"
  {
    if Is(x, a) {
      EquivalenceIsLocal(x, y, a);
      TreeUnique();
      TreeIndexed();
      TreeMimes();
      assert AliasIndex(a) == Some(y.sig);
      assert x.sig == M4a;
      assert m4a in root.children && aMp4 in root.children;
      InTree(m4a);
      InTree(aMp4);
      SameSigSameNode(root, x, m4a);
      assert AliasIndex("audio/x-m4a") == Some(AMp4);
      SameSigSameNode(root, y, aMp4);
    }
  }

  /**
   * gzip answers to its canonical type and to each of its aliases, and no
   * other node of the tree answers to any of those aliases.
   */
  lemma GzipEquivalence(x: Node, a: string)
    requires x in Flatten(root) && x != gzip
    requires a in gzip.aliases
    ensures Is(gzip, "application/gzip") && Is(gzip, a)
    ensures !Is(x, a)
  {
    assert gzip in root.children;
    InTree(gzip);
    ForeignAlias(x, gzip, a);
  }

  // ---------------------------------------------------------------------------
  // Detection on the configured tree

  /**
   * Detection always ends at a node of the tree whose signature passes,
   * reached from the root in at most three steps, after evaluating each
   * signature at most once and at most 135 signatures in all.
   */
  lemma DetectTotal(cat: Catalog, buf: Buffer)
    ensures Detect(cat, buf).path[0] == root
    ensures Detect(cat, buf).node in Flatten(root)
    ensures Matches(cat, Detect(cat, buf).node.sig, buf)
    ensures |Detect(cat, buf).path| <= 4
    ensures |Detect(cat, buf).probes| <= 135
    ensures forall s :: multiset(Detect(cat, buf).probes)[s] <= 1
  {
    TreeUnique();
    TreeLow();
    TreeSize();
    DescendBounds(cat, root, buf);
    DetectedMatches(cat, root, buf);
  }

  /**
   * The root is the answer exactly when no child of the root recognises the
   * buffer; it is then application/octet-stream with no extension.
   */
  lemma RootFallback(cat: Catalog, buf: Buffer)
    ensures Detect(cat, buf).node == root <==> forall c | c in root.children :: !cat(c.sig, buf)
    ensures Detect(cat, buf).node == root ==>
      Detect(cat, buf).node.mime == "application/octet-stream" && Detect(cat, buf).node.extension == ""
  {
    var w := Detect(cat, buf);
    if forall c | c in root.children :: !cat(c.sig, buf) {
      forall j | 0 <= j < |root.children| ensures !Matches(cat, root.children[j].sig, buf) {
        RootChild(root.children[j]);
        BelowRoot(root.children[j]);
      }
    }
    DescendIsSearch(cat, root, buf);
    if |w.path| > 1 {
      EndInChild(w.path);
      ChainTail(w.path);
      ChainInside(w.path[1..]);
      ChildFlattenInside(root.children, w.path[1], w.node);
      BelowRoot(w.node);
    }
  }

  /**
   * A buffer that no signature but True accepts, the empty buffer under a
   * catalog that rejects it, is reported as application/octet-stream.
   */
  lemma EmptyBuffer(cat: Catalog)
    requires forall s :: !cat(s, [])
    ensures Detect(cat, []).node == root
    ensures Detect(cat, []).node.mime == "application/octet-stream"
    ensures Detect(cat, []).node.extension == ""
  {
    RootFallback(cat, []);
  }

  /**
   * A buffer recognised by exactly the signatures along a path from the root
   * is detected at the end of that path.
   */
  lemma DetectAlong(cat: Catalog, buf: Buffer, p: seq<Node>)
    requires IsChain(p) && p[0] == root
    requires forall s :: cat(s, buf) <==> s in Sigs(p[1..])
    ensures Detect(cat, buf).path == p
  {
    TreeUnique();
    forall m | m in FlattenAll(root.children)
      ensures Matches(cat, m.sig, buf) <==> m in p[1..]
    {
      PassesOnChain(cat, buf, p, m);
    }
    DescendAlong(cat, buf, p);
  }

  /**
   * Under DetectAlong's hypothesis, on any tree with unique signatures and
   * True at its root, a node below the root passes exactly when it is on p.
   */
  lemma PassesOnChain(cat: Catalog, buf: Buffer, p: seq<Node>, m: Node)
    requires IsChain(p) && Unique(Bag(p[0])) && p[0].sig == True
    requires forall s :: cat(s, buf) <==> s in Sigs(p[1..])
    requires m in FlattenAll(p[0].children)
    ensures Matches(cat, m.sig, buf) <==> m in p[1..]
  {
    var r := p[0];
    NotBelowItself(r, m);
    assert m in Flatten(r);
    if m.sig == True {
      SameSigSameNode(r, m, r);
    }
    if m in p[1..] {
      InSigs(p[1..], m);
    } else if cat(m.sig, buf) {
      var j :| 0 <= j < |p[1..]| && Sigs(p[1..])[j] == m.sig;
      ChainPrefix(p, j + 2);
      ChainInside(p[..j + 2]);
      SameSigSameNode(r, m, p[j + 1]);
    }
  }

  /** Once a child of the root passes, no later child of the root is evaluated. */
  lemma RootSiblingUnprobed(cat: Catalog, buf: Buffer, i: nat, j: nat)
    requires i < j < |root.children| && Matches(cat, root.children[i].sig, buf)
    ensures root.children[j].sig !in multiset(Detect(cat, buf).probes)
  {
    TreeUnique();
    LaterSiblingUnprobed(cat, root, buf, i, j);
  }

  /**
   * When child i of the root is the first that passes, detection goes on
   * from that child.
   */
  lemma RootStep(cat: Catalog, buf: Buffer, i: nat)
    requires i < |root.children| && Matches(cat, root.children[i].sig, buf)
    requires forall j | 0 <= j < i :: !Matches(cat, root.children[j].sig, buf)
    ensures Detect(cat, buf).path == [root] + Descend(cat, root.children[i], buf).path
  {
    FirstPasses(cat, root, buf, i);
    DescendStep(cat, root, buf);
  }

  /**
   * Below txt, a document that html and svg reject and xml accepts is found
   * at xml when none of the XML dialects below xml accepts it.
   */
  lemma TxtToXml(cat: Catalog, buf: Buffer)
    requires !Matches(cat, Html, buf) && !Matches(cat, Svg, buf) && Matches(cat, Xml, buf)
    requires forall j | 0 <= j < |xml.children| :: !Matches(cat, xml.children[j].sig, buf)
    ensures Descend(cat, txt, buf).path == [txt, xml]
  {
    TxtOrder();
    StepToLast(cat, txt, buf, 2);
  }

  /** html, svg and xml are the first three children of txt, in that order. */
  lemma TxtOrder()
    ensures |txt.children| > 2
    ensures txt.children[0].sig == Html && txt.children[1].sig == Svg && txt.children[2] == xml
  {
  }

  /**
   * When child i is the first passing child of n and none of its own children
   * passes, the search from n ends at child i.
   */
  lemma StepToLast(cat: Catalog, n: Node, buf: Buffer, i: nat)
    requires i < |n.children| && Matches(cat, n.children[i].sig, buf)
    requires forall j | 0 <= j < i :: !Matches(cat, n.children[j].sig, buf)
    requires forall j | 0 <= j < |n.children[i].children| :: !Matches(cat, n.children[i].children[j].sig, buf)
    ensures Descend(cat, n, buf).path == [n, n.children[i]]
  {
    FirstPasses(cat, n, buf, i);
    DescendStep(cat, n, buf);
    StopsWhenNoChildPasses(cat, n.children[i], buf);
  }

  /** Once a child of txt passes, no later child of txt is evaluated. */
  lemma TxtSiblingUnprobed(cat: Catalog, buf: Buffer, i: nat, j: nat)
    requires i < j < |txt.children| && Matches(cat, txt.children[i].sig, buf)
    ensures txt.children[j].sig !in multiset(Descend(cat, txt, buf).probes)
  {
    TxtUnique();
    LaterSiblingUnprobed(cat, txt, buf, i, j);
  }

  /** The search from a node none of whose children passes stops there. */
  lemma StopsWhenNoChildPasses(cat: Catalog, n: Node, buf: Buffer)
    requires forall j | 0 <= j < |n.children| :: !Matches(cat, n.children[j].sig, buf)
    ensures Descend(cat, n, buf).path == [n]
  {
  }

  /**
   * A buffer gzip recognises is reported as application/gzip when none of
   * the 49 root children listed before gzip recognises it; the signatures
   * listed after gzip do not matter.
   */
  lemma GzipDetected(cat: Catalog, buf: Buffer)
    requires forall j | 0 <= j < 49 :: !Matches(cat, root.children[j].sig, buf)
    requires Matches(cat, Gzip, buf)
    ensures Detect(cat, buf).path == [root, gzip]
    ensures Detect(cat, buf).node.mime == "application/gzip"
    ensures Is(Detect(cat, buf).node, "application/x-gzip")
  {
    assert root.children[49] == gzip;
    RootStep(cat, buf, 49);
    StopsAtLeaf(cat, gzip, buf);
  }

  /**
   * An XML document is found at root, txt, xml when no root child before txt
   * recognises it, txt does, html and svg do not, xml does, and none of the
   * XML dialects below xml does.
   */
  lemma XmlDetected(cat: Catalog, buf: Buffer)
    requires forall j | 0 <= j < 48 :: !Matches(cat, root.children[j].sig, buf)
    requires Matches(cat, Txt, buf)
    requires !Matches(cat, Html, buf) && !Matches(cat, Svg, buf) && Matches(cat, Xml, buf)
    requires forall j | 0 <= j < |xml.children| :: !Matches(cat, xml.children[j].sig, buf)
    ensures Detect(cat, buf).path == [root, txt, xml]
    ensures Detect(cat, buf).node.mime == "text/xml; charset=utf-8"
  {
    assert root.children[48] == txt;
    RootStep(cat, buf, 48);
    TxtToXml(cat, buf);
  }

  /**
   * A workbook is found at root, zip, xlsx when sevenZ, the one root child
   * before zip, does not recognise it and zip and xlsx do.
   */
  lemma XlsxDetected(cat: Catalog, buf: Buffer)
    requires !Matches(cat, SevenZ, buf) && Matches(cat, Zip, buf) && Matches(cat, Xlsx, buf)
    ensures Detect(cat, buf).path == [root, zip, xlsx]
    ensures Detect(cat, buf).node.extension == "xlsx"
  {
    ZipOrder();
    RootStep(cat, buf, 1);
    StepToLast(cat, zip, buf, 0);
  }

  /** sevenZ and zip open the root's child list, txt is its 49th child, and xlsx opens zip's. */
  lemma ZipOrder()
    ensures |root.children| > 48 && root.children[0] == sevenZ && root.children[1] == zip
    ensures root.children[48] == txt
    ensures |zip.children| > 0 && zip.children[0] == xlsx && xlsx.children == []
  {
  }

  /** Whatever the buffer, an answer of xml or geoJson comes with its one path. */
  lemma DetectedTextPaths(cat: Catalog, buf: Buffer)
    ensures Detect(cat, buf).node == xml ==> Detect(cat, buf).path == [root, txt, xml]
    ensures Detect(cat, buf).node == geoJson ==> Detect(cat, buf).path == [root, txt, json, geoJson]
  {
    var w := Detect(cat, buf);
    DescendIsSearch(cat, root, buf);
    TextPaths(w.path);
  }

  /**
   * Under txt, html and svg are tried before xml: either one passing ends the
   * search there, and the xml signature is not evaluated.
   */
  lemma HtmlSvgBeforeXml(cat: Catalog, buf: Buffer)
    requires cat(Html, buf) || cat(Svg, buf)
    ensures Descend(cat, txt, buf).node == html || Descend(cat, txt, buf).node == svg
    ensures Xml !in multiset(Descend(cat, txt, buf).probes)
  {
    var i := if cat(Html, buf) then 0 else 1;
    TxtSiblingUnprobed(cat, buf, i, 2);
    assert txt.children[2] == xml;
    HtmlSvgEndSearch(cat, buf, i);
  }

  /** Under txt, a passing html or svg ends the search at one of the two. */
  lemma HtmlSvgEndSearch(cat: Catalog, buf: Buffer, i: nat)
    requires i < 2 && Matches(cat, txt.children[i].sig, buf)
    ensures Descend(cat, txt, buf).node == html || Descend(cat, txt, buf).node == svg
  {
    Precedence(cat, txt, buf, i);
    var w := Descend(cat, txt, buf);
    var v := FirstMatch(cat, txt.children, buf).value;
    var c := txt.children[v];
    assert c == html || c == svg;
    DescendStep(cat, txt, buf);
    StopsAtLeaf(cat, c, buf);
    assert w.path == [txt, c];
  }

  /**
   * Under the root, zip is tried before txt: a zip archive is never taken for
   * text, and the txt signature is not even evaluated.
   */
  lemma ZipBeforeTxt(cat: Catalog, buf: Buffer)
    requires cat(Zip, buf)
    ensures |Detect(cat, buf).path| >= 2
    ensures Detect(cat, buf).path[1] == sevenZ || Detect(cat, buf).path[1] == zip
    ensures Detect(cat, buf).path[1] != txt
    ensures Txt !in multiset(Detect(cat, buf).probes)
  {
    ZipOrder();
    RootSiblingUnprobed(cat, buf, 1, 48);
    Precedence(cat, root, buf, 1);
  }
}
