/** The document library of app/documents/page.tsx: a tree of documents
    (the mock tree is a parameter), the folder path being browsed, the path
    walk that finds the listing for that path, the name filter and the
    icon/colour tables. */
module Documents {
  import opened Seqs
  import opened Text
  import opened Types
  import opened Store

  /** `docs.find(d => d.name === name && d.isFolder)` */
  function FindFolder(docs: seq<Document>, name: string): (r: Option<Document>)
    ensures r.Some? ==> r.value in docs && r.value.name == name && r.value.isFolder
  {
    if docs == [] then None
    else if docs[0].name == name && docs[0].isFolder then Some(docs[0])
    else FindFolder(docs[1..], name)
  }

  /** One turn of the loop: descend when the folder is found and has `children`
      (an empty children list counts), else stay at the current level. */
  function Step(docs: seq<Document>, part: string): seq<Document>
  {
    var folder := FindFolder(docs, part);
    if folder.Some? && folder.value.children.Some? then folder.value.children.value else docs
  }

  /** The level reached from `root` along `path`, one part at a time. */
  function Walk(root: seq<Document>, path: seq<string>): seq<Document>
    decreases |path|
  {
    if path == [] then root else Step(Walk(root, path[..|path| - 1]), path[|path| - 1])
  }

  function Listing(docs: seq<Document>, query: string): seq<Document>
  {
    Filter(docs, d => DocumentMatches(d, query))
  }

  datatype FileIcon = FolderIcon | FileTextIcon | SpreadsheetIcon | PresentationIcon | ImageIcon | GenericIcon

  /** `getFileIcon`: `doc` has no case of its own and gets the default. */
  function IconFor(t: DocType): FileIcon
  {
    match t
    case Folder => FolderIcon
    case Pdf => FileTextIcon
    case Xlsx => SpreadsheetIcon
    case Pptx => PresentationIcon
    case Image => ImageIcon
    case Doc => GenericIcon
  }

  /** `getFileColor`: `image` has no case of its own and gets the default. */
  function ColorFor(t: DocType): string
  {
    match t
    case Folder => "text-yellow-500"
    case Pdf => "text-red-500"
    case Xlsx => "text-green-500"
    case Pptx => "text-orange-500"
    case Doc => "text-blue-500"
    case Image => "text-muted-foreground"
  }

  class Page {
    const root: seq<Document>
    var currentPath: seq<string>
    var searchQuery: string

    constructor (root: seq<Document>)
      ensures this.root == root && currentPath == [] && searchQuery == ""
    {
      this.root := root;
      currentPath := [];
      searchQuery := "";
    }

    /** `getCurrentDocuments`: the root for the empty path, else the loop over the parts. */
    method CurrentDocuments() returns (docs: seq<Document>)
      ensures docs == Walk(root, currentPath)
    {
      if |currentPath| == 0 {
        return root;
      }
      docs := root;
      for i := 0 to |currentPath|
        invariant docs == Walk(root, currentPath[..i])
      {
        assert currentPath[..i + 1][..i] == currentPath[..i];
        var folder := FindFolder(docs, currentPath[i]);
        if folder.Some? && folder.value.children.Some? {
          docs := folder.value.children.value;
        }
      }
      assert currentPath[..|currentPath|] == currentPath;
    }

    /** The filtered listing the page renders. */
    method FilteredDocuments() returns (shown: seq<Document>)
      ensures shown == Listing(Walk(root, currentPath), searchQuery)
    {
      var docs := CurrentDocuments();
      shown := Listing(docs, searchQuery);
    }

    method SetSearchQuery(q: string)
      modifies this`searchQuery
      ensures searchQuery == q
    {
      searchQuery := q;
    }

    /** Only a folder extends the path, by its name. */
    method HandleFolderClick(d: Document)
      modifies this`currentPath
      ensures d.isFolder ==> currentPath == old(currentPath) + [d.name]
      ensures !d.isFolder ==> currentPath == old(currentPath)
    {
      if d.isFolder {
        currentPath := currentPath + [d.name];
      }
    }

    /** `currentPath.slice(0, index)`; the crumb at position k calls it with k + 1. */
    method HandleBreadcrumbClick(index: nat)
      modifies this`currentPath
      ensures currentPath == old(currentPath)[..if index < |old(currentPath)| then index else |old(currentPath)|]
    {
      currentPath := currentPath[..if index < |currentPath| then index else |currentPath|];
    }

    /** The root crumb. */
    method HandleRootClick()
      modifies this`currentPath
      ensures currentPath == [] && Walk(root, currentPath) == root
    {
      currentPath := [];
    }
  }

  /** `find` returns the first folder with the name, and none when no folder has it. */
  lemma {:induction false} FindFolderSpec(docs: seq<Document>, name: string)
    ensures FindFolder(docs, name).None? <==> forall i :: 0 <= i < |docs| ==> !(docs[i].name == name && docs[i].isFolder)
    ensures FindFolder(docs, name).Some? ==>
      exists i :: (0 <= i < |docs| && docs[i] == FindFolder(docs, name).value
                   && forall j :: 0 <= j < i ==> !(docs[j].name == name && docs[j].isFolder))
  {
    if docs != [] && !(docs[0].name == name && docs[0].isFolder) {
      FindFolderSpec(docs[1..], name);
      if FindFolder(docs, name).Some? {
        var i :| 0 <= i < |docs[1..]| && docs[1..][i] == FindFolder(docs, name).value
          && forall j :: 0 <= j < i ==> !(docs[1..][j].name == name && docs[1..][j].isFolder);
        assert docs[i + 1] == FindFolder(docs, name).value;
        assert forall j :: 0 <= j < i + 1 ==> !(docs[j].name == name && docs[j].isFolder) by {
          forall j | 0 <= j < i + 1 ensures !(docs[j].name == name && docs[j].isFolder) {
            if j > 0 { assert docs[j] == docs[1..][j - 1]; }
          }
        }
      }
    } else if docs != [] {
      assert docs[0] == FindFolder(docs, name).value;
    }
  }

  /** A part naming no folder of the current level, or a folder without
      `children`, leaves the level as it is. */
  lemma UnknownPartStays(docs: seq<Document>, part: string)
    requires forall i :: 0 <= i < |docs| && docs[i].name == part && docs[i].isFolder ==> docs[i].children.None?
    ensures Step(docs, part) == docs
  {
    FindFolderSpec(docs, part);
    if FindFolder(docs, part).Some? {
      var i :| 0 <= i < |docs| && docs[i] == FindFolder(docs, part).value
        && forall j :: 0 <= j < i ==> !(docs[j].name == part && docs[j].isFolder);
    }
  }

  /** Walking a longer path continues from where the shorter one ended. */
  lemma {:induction false} WalkAppend(root: seq<Document>, p: seq<string>, q: seq<string>)
    ensures Walk(root, p + q) == Walk(Walk(root, p), q)
    decreases |q|
  {
    if q == [] {
      assert p + q == p;
    } else {
      assert (p + q)[..|p + q| - 1] == p + q[..|q| - 1];
      assert (p + q)[|p + q| - 1] == q[|q| - 1];
      WalkAppend(root, p, q[..|q| - 1]);
    }
  }

  /** Clicking the first folder of a name in the listing, when it has children,
      shows exactly those children. */
  lemma FolderClickShowsChildren(root: seq<Document>, path: seq<string>, d: Document)
    requires FindFolder(Walk(root, path), d.name) == Some(d) && d.children.Some?
    ensures Walk(root, path + [d.name]) == d.children.value
  {
    assert (path + [d.name])[..|path + [d.name]| - 1] == path;
  }

  /** A breadcrumb shows the level of its own prefix of the path. */
  lemma BreadcrumbShowsPrefix(root: seq<Document>, path: seq<string>, k: nat)
    requires k <= |path|
    ensures Walk(root, path) == Walk(Walk(root, path[..k]), path[k..])
  {
    assert path == path[..k] + path[k..];
    WalkAppend(root, path[..k], path[k..]);
  }

  /** The listing keeps, in order, exactly the documents whose name contains the query. */
  lemma ListingSpec(docs: seq<Document>, query: string)
    ensures forall d :: d in Listing(docs, query) <==> d in docs && MatchesText(d.name, query)
    ensures IsSubsequence(Listing(docs, query), docs)
  {
    forall d ensures d in Listing(docs, query) <==> d in docs && DocumentMatches(d, query) {
      FilterMembership(docs, d => DocumentMatches(d, query), d);
    }
    FilterIsSubsequence(docs, d => DocumentMatches(d, query));
  }

  /** The two tables give their listed types their own entry and fall back to the
      default for the type each leaves out. */
  lemma IconAndColorDefaults(t: DocType)
    ensures IconFor(t) == GenericIcon <==> t == Doc
    ensures ColorFor(t) == "text-muted-foreground" <==> t == Image
  {
  }
}
