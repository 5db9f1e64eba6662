# mimetype classification tree, modelled in Dafny

This project models the core of the Go library `mimetype`, which lives in
`tree.go`. That file defines a rooted, ordered tree of detection rules.

Each node has:
- a canonical MIME type;
- a default extension, which may be empty;
- a list of alias type strings;
- a signature predicate from the matcher catalog;
- an ordered list of more specific child nodes.

Detection searches this tree. The root's predicate passes for every
buffer. When a node's predicate passes, its children are tried in the order
they are listed. The search descends into the first child that passes and
never comes back to try a later sibling. It ends at the first node none of
whose children passes, and the result is that node.

The model has these modules:

- `Matchers` (`matchers.dfy`): the names of the signature predicates (`Sig`), the
  byte buffer, and `Matches`. `Matches` asks a caller-supplied `Catalog` for
  every predicate except `True`, which always passes.
- `Nodes` (`nodes.dfy`): the `Node` datatype, the local equivalence check `Is`
  (the canonical type or one of the node's own aliases), and the structural
  vocabulary used by the proofs. That vocabulary covers:
  - the preorder listing of a subtree;
  - the multiset of its signatures;
  - its height;
  - descending chains;
  - parent slots.
- `Tree` (`tree.dfy`): the configured tree as a literal constant, one `const`
  per Go variable, in source order. Each `const` carries a comment with its
  `tree.go` line. The root's child list is written as one piece per source
  line.
- `Detection` (`detection.dfy`): `FirstMatch`, the recursive search `Descend`
  and `Detect`. A `Walk` result holds the detected node, the path from the
  root to it, and the signatures evaluated on the way, in order. This module
  also holds the general facts about the search.
- `Audit` (`audit.dfy`): a node-by-node check of the configured tree. It
  proves that every signature occurs once, that the tree has 136 nodes, that
  its height is at most 3, and that every alias is recorded against its own
  node. The check also ties every node's canonical type to its signature,
  from which it follows that no canonical type is another node's alias,
  with the one exception of audio/x-m4a. The check uses two tables:
  - for each signature, its preorder position and the canonical type of its
    node;
  - an alias index from each alias string to the signature of the node that
    declares it.

  A table that disagreed with the tree would make the check fail, so neither
  table is trusted.
- `TreeFacts` (`tree_facts.dfy`): the configuration facts and the behaviour of
  detection on the configured tree.

## Model

| member | source | states |
|---|---|---|
| Tree.root | tree.go:8-188 | The configured tree, one constant per node: canonical type, extension, aliases, signature and children in source order, with the root accepting every buffer |
| Matchers.MatchesRule | tree.go:5-8 | True, the root's predicate, passes for every buffer, the empty one included; any other signature passes exactly when the catalog accepts the buffer |
| Nodes.Is | tree.go:19-20 | A node answers to a type string exactly when the string is its canonical type or one of the aliases it declares itself |
| Detection.FirstMatch | tree.go:5-7 | The result is the position of a passing child with no passing child before it; the result is None exactly when no child passes |
| Detection.Descend | tree.go:5-7 | The path starts at the start node and ends at the returned node, and no child of the returned node passes |
| Detection.Detect | tree.go:5-8 | Detection is the search from the root: its path starts at the root, and no child of the reported node passes |
| Detection.DescendIsSearch | tree.go:5-7 | The path goes down the tree one child at a time. Each step is to the first child that passes, every node after the start passes, and no child of the last node passes |
| Detection.SearchIsDescend | tree.go:5-7 | Any path obeying the search rule is the one Descend returns, so detection is deterministic |
| Detection.DescendSuffix | tree.go:5-7 | Restarting the search at any node on the path retraces the rest of the path, because no step backtracks |
| Detection.DetectedMatches | tree.go:5-7 | The detected node's own predicate passes |
| Detection.Precedence | tree.go:5-7 | If child i passes, the search steps to child i or to an earlier sibling; later siblings are never chosen |
| Detection.FirstPasses | tree.go:5-7 | The first passing child in list order is the one the search steps to |
| Detection.LaterSiblingUnprobed | tree.go:5-7 | Once a child passes, no sibling listed after it is evaluated: with unique signatures, the later sibling's signature is not among those the search evaluates |
| Detection.ProbesBeforeNext | tree.go:5-7 | When some child passes, the search evaluates only signatures from the subtrees under the children up to the first that passes |
| Detection.ProbesBelow | tree.go:5-7 | The signatures evaluated are among those below the start node, with no more repeats than they occur there |
| Detection.DescendBounds | tree.go:5-7 | When signatures are unique, the result lies in the subtree, the path is at most height+1 long, and each signature is evaluated at most once |
| Detection.DescendAlong | tree.go:5-7 | If exactly the nodes of chain p after its start pass, the search follows p to its end |
| Audit.CheckSound | tree.go:8-188 | A subtree that passes the check is numbered in preorder, has unique signatures, fits the depth bound, has every alias indexed, and carries the canonical types the table gives its signatures |
| Audit.MimesUnclaimed | tree.go:19-188 | No canonical type in the table is indexed as an alias, except audio/x-m4a, which is indexed against aMp4 |
| Audit.TreeUnique | tree.go:8-188 | Every node of the configured tree has its own signature |
| Audit.TreeSize | tree.go:8-188 | The configured tree has 136 nodes |
| Audit.TreeLow | tree.go:8-188 | No node lies more than three levels below the root |
| Audit.TreeIndexed | tree.go:19-188 | Every declared alias is indexed against the node that declares it |
| Audit.TreeMimes | tree.go:19-188 | No canonical type in the tree is another node's alias, except audio/x-m4a, the canonical type of m4a |
| TreeFacts.SingleParent | tree.go:8-188 | Every non-root node occupies exactly one child-list slot in the whole tree; the root occupies none |
| TreeFacts.AliasesDisjoint | tree.go:19-188 | Two nodes that both declare an alias are the same node |
| TreeFacts.EquivalenceIsLocal | tree.go:19-188 | A node answers to an alias declared elsewhere exactly when that alias is its own canonical type; the declaring node always answers to it |
| TreeFacts.ForeignAlias | tree.go:19-188 | A node answers to an alias that a different node declares exactly when the node is m4a, the declaring node is aMp4 and the alias is audio/x-m4a |
| TreeFacts.GzipEquivalence | tree.go:19-20 | gzip answers to application/gzip and to each of its aliases, and no other node of the tree answers to any of those aliases |
| TreeFacts.M4aTwice | tree.go:115-117 | audio/x-m4a is an alias of aMp4 and the canonical type of m4a, two different children of the root |
| TreeFacts.TreeHeight | tree.go:155-157 | The tree height is exactly 3, reached by the chain root, zip, odt, ott |
| TreeFacts.OfficeBelowZip | tree.go:22-29 | Every path from the root to xlsx, odt, ods, odp, odg or odf is root, zip, that node |
| TreeFacts.TemplatesBelowZip | tree.go:155-170 | Every path from the root to ott, ots, otp or otg is root, zip, its document type, the template |
| TreeFacts.TextPaths | tree.go:48-53 | The only path to xml is root, txt, xml; the only path to geoJson is root, txt, json, geoJson |
| TreeFacts.OctetStreamShared | tree.go:142-143 | root, shx and shp are three different nodes that share the canonical type application/octet-stream |
| TreeFacts.MsAccessShared | tree.go:186-187 | mdb and accdb share application/x-msaccess and differ in extension |
| TreeFacts.HeicExtensionShared | tree.go:96-97 | heic and heicSeq share the extension heic and differ in canonical type |
| TreeFacts.EmptyExtensions | tree.go:146 | elf, ole (tree.go:34) and the root have empty extensions |
| TreeFacts.DetectTotal | tree.go:5-15 | Detection starts at the root and ends at a node of the tree whose predicate passes, within three steps. It evaluates each signature at most once and at most 135 in all |
| TreeFacts.RootFallback | tree.go:8-15 | The result is the root exactly when no child of the root passes; it is then application/octet-stream with an empty extension |
| TreeFacts.EmptyBuffer | tree.go:8 | Under a catalog that rejects the empty buffer, the empty buffer is reported as application/octet-stream with no extension |
| TreeFacts.DetectAlong | tree.go:5-15 | A buffer recognised by exactly the signatures on a root path is detected at the end of that path |
| TreeFacts.RootStep | tree.go:8-15 | When root child i is the first that passes, detection continues from that child |
| TreeFacts.GzipDetected | tree.go:9-14 | A buffer gzip accepts and none of the 49 root children before gzip accepts is detected along root, gzip, whatever later signatures say; gzip answers to application/x-gzip |
| TreeFacts.TxtToXml | tree.go:48-49 | Below txt, a buffer that html and svg reject, xml accepts and no child of xml accepts ends the search at xml |
| TreeFacts.XmlDetected | tree.go:9-12 | A buffer no root child before txt accepts, txt accepts, html and svg reject, xml accepts and no child of xml accepts is detected along root, txt, xml |
| TreeFacts.XlsxDetected | tree.go:9-23 | A buffer sevenZ rejects and zip and xlsx accept is detected along root, zip, xlsx, whatever later signatures say |
| TreeFacts.DetectedTextPaths | tree.go:48-53 | Whatever the buffer, a result of xml or geoJson comes with its unique path |
| TreeFacts.HtmlSvgBeforeXml | tree.go:48 | Under txt, if html or svg passes, the search ends at html or svg, and the xml signature is not evaluated |
| TreeFacts.ZipBeforeTxt | tree.go:9-12 | If zip passes, detection's first step is sevenZ or zip, never txt, and the txt signature is not evaluated |

## Left out

- The matcher bodies (the `internal/matchers` package) are not part of this
  model. They are the `Catalog` parameter, a total function from a signature
  and a buffer to a verdict. Only `True` is fixed: it always passes.
- Matchers are assumed to be deterministic functions of the buffer. A
  matcher that faults is not modelled.
- `newNode`, `alias` and the Go matching loop are not part of this model:
  their bodies are not shown in `tree.go`. The search follows the rule
  documented at tree.go:5-7.
- Parent references are not modelled. The ancestor chain is the `path`
  that detection returns.
- The builder's fail-fast checks for duplicate aliases and re-parented nodes
  are not modelled. Instead, the fixed configuration is proved to satisfy
  both invariants: `AliasesDisjoint` and `SingleParent`.
- Reading from files or readers and the read-length limit are not modelled.
  Detection takes the buffer as already in memory.
- Package-level initialisation order and thread safety of the shared tree
  are not modelled.
- MIME parameter parsing (`; charset=utf-8`) is not modelled. Type strings
  are opaque and compared by equality only.
- The Go variable `class` is named `classFile`, because `class` is a
  keyword in Dafny.
- Equivalence: a node that does not declare an alias can still answer to it
  when the alias is that node's own canonical type. This happens for
  audio/x-m4a, which is an alias of `aMp4` and the canonical type of `m4a`.
  The model follows the code here; see `M4aTwice`. So "a node that does not
  declare `a` never answers to `a`" holds only for nodes whose canonical type
  is not `a`.
- EmptyBuffer: the claim that every predicate except `True` rejects the
  empty buffer is a hypothesis about the external catalog. It is not proved.
