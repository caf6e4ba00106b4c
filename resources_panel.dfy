/** The project resources panel: uploaded files with their simulated upload
    progress, saved links, the search filters over both, and the file-type
    classification behind the icon and the colour badge. */
module ResourcesPanel {
  import opened Collections
  import opened Text

  datatype Person = Person(id: string, name: string)

  const CurrentUser := Person("current-user", "Current User")

  datatype FileStatus = Uploading | Completed | Failed

  /** A file; `mimeType` is the browser's MIME type string and `progress`
      the optional upload percentage. */
  datatype FileItem = FileItem(
    id: string,
    name: string,
    mimeType: string,
    size: nat,
    uploadedBy: Person,
    uploadedAt: int,
    status: FileStatus,
    progress: Option<real>)

  datatype LinkItem = LinkItem(
    id: string,
    name: string,
    url: string,
    description: Option<string>,
    addedBy: Person,
    addedAt: int)

  // ------------------------------------------------------ classification

  datatype FileKind = ImageFile | PdfFile | OtherFile

  /** The test `getFileIcon` and `getFileTypeColor` share: an `image/`
      prefix first, then `pdf` anywhere in the type. */
  function Classify(mimeType: string): (k: FileKind)
    ensures k == ImageFile <==> StartsWith(mimeType, "image/")
    ensures k == PdfFile <==> !StartsWith(mimeType, "image/") && Contains(mimeType, "pdf")
    ensures k == OtherFile <==> !StartsWith(mimeType, "image/") && !Contains(mimeType, "pdf")
  {
    if StartsWith(mimeType, "image/") then ImageFile
    else if Contains(mimeType, "pdf") then PdfFile
    else OtherFile
  }

  /** `getFileTypeColor`: green for images, red for PDFs, grey otherwise,
      decided by the same test as the icon. */
  function TypeColor(mimeType: string): (c: string)
    ensures c == "bg-green-100 text-green-800" <==> Classify(mimeType) == ImageFile
    ensures c == "bg-red-100 text-red-800" <==> Classify(mimeType) == PdfFile
    ensures c == "bg-gray-100 text-gray-800" <==> Classify(mimeType) == OtherFile
  {
    match Classify(mimeType)
    case ImageFile => "bg-green-100 text-green-800"
    case PdfFile => "bg-red-100 text-red-800"
    case OtherFile => "bg-gray-100 text-gray-800"
  }

  /** The prefix test wins over the `pdf` test. */
  lemma ClassifyPrefixFirst()
    ensures Classify("image/pdf") == ImageFile
  {
  }

  /** The seeded PDF is classified as a PDF, the seeded Figma file as other. */
  lemma ClassifySeededTypes()
    ensures Classify("application/pdf") == PdfFile
    ensures Classify("application/figma") == OtherFile
  {
    assert "application/pdf"[0] != "image/"[0];
    assert "application/figma"[0] != "image/"[0];
    assert OccursAt("application/pdf", "pdf", 12);
    ContainsIffOccurs("application/pdf", "pdf");
    assert 'd' !in "application/figma";
    ContainedCharsOccur("application/figma", "pdf", 'd');
  }

  // ------------------------------------------------------------- uploads

  /** A file the browser hands to the upload handler. */
  datatype Upload = Upload(name: string, mimeType: string, size: nat)

  /** The entry an upload starts as. */
  function StartedFile(u: Upload, id: string, now: int): FileItem
  {
    FileItem(id, u.name, u.mimeType, u.size, CurrentUser, now, Uploading, Some(0.0))
  }

  /** The entries a batch of uploads appends, one per file, in order, with
      the fresh ids as a parameter. */
  function StartedFiles(uploads: seq<Upload>, ids: seq<string>, now: int): (r: seq<FileItem>)
    requires |ids| == |uploads|
    ensures |r| == |uploads|
    ensures forall i :: 0 <= i < |r| ==>
              r[i].id == ids[i] && r[i].name == uploads[i].name && r[i].mimeType == uploads[i].mimeType &&
              r[i].size == uploads[i].size && r[i].status == Uploading && r[i].progress == Some(0.0)
  {
    seq(|uploads|, i requires 0 <= i < |uploads| => StartedFile(uploads[i], ids[i], now))
  }

  function LacksId(id: string): FileItem -> bool { (f: FileItem) => f.id != id }

  /** One tick of a file's upload interval, with the random increment
      (`Math.random() * 30`) as a parameter. */
  function StepFile(id: string, increment: real): FileItem -> FileItem
  {
    (f: FileItem) =>
      if f.id == id && f.status == Uploading then
        var newProgress := (if f.progress.Some? then f.progress.value else 0.0) + increment;
        if newProgress >= 100.0 then f.(progress := Some(100.0), status := Completed)
        else f.(progress := Some(newProgress))
      else f
  }

  /** The file list after one tick of the interval of file `id`. */
  function ProgressStep(files: seq<FileItem>, id: string, increment: real): seq<FileItem>
  {
    Map(files, StepFile(id, increment))
  }

  /** The progress a file shows, `progress || 0`. */
  function Shown(f: FileItem): real
  {
    if f.progress.Some? then f.progress.value else 0.0
  }

  /** A tick touches only the uploading files with the id; there the
      progress never falls (for progress up to 100), reaching 100 completes
      the file at exactly 100, and otherwise the increment is added. */
  lemma ProgressStepSpec(files: seq<FileItem>, id: string, increment: real)
    requires 0.0 <= increment < 30.0
    ensures |ProgressStep(files, id, increment)| == |files|
    ensures forall i :: 0 <= i < |files| && (files[i].id != id || files[i].status != Uploading) ==>
              ProgressStep(files, id, increment)[i] == files[i]
    ensures forall i :: 0 <= i < |files| && files[i].id == id && files[i].status == Uploading ==>
              var g := ProgressStep(files, id, increment)[i];
              g.(progress := files[i].progress, status := files[i].status) == files[i] &&
              (Shown(files[i]) <= 100.0 ==> Shown(g) >= Shown(files[i])) &&
              (Shown(files[i]) + increment >= 100.0 ==> g.status == Completed && g.progress == Some(100.0)) &&
              (Shown(files[i]) + increment < 100.0 ==>
                 g.status == Uploading && g.progress == Some(Shown(files[i]) + increment))
  {
  }

  /** Progress stays within 0 to 100 on every file once it starts there. */
  ghost predicate ProgressInRange(files: seq<FileItem>)
  {
    forall i :: 0 <= i < |files| ==> 0.0 <= Shown(files[i]) <= 100.0
  }

  lemma ProgressStepInRange(files: seq<FileItem>, id: string, increment: real)
    requires 0.0 <= increment < 30.0 && ProgressInRange(files)
    ensures ProgressInRange(ProgressStep(files, id, increment))
  {
    ProgressStepSpec(files, id, increment);
  }

  /** A started upload completes after at most four ticks of its interval
      when every increment is at least 25. */
  lemma UploadCompletes(f: FileItem, a: real, b: real, c: real, d: real)
    requires f.status == Uploading && Shown(f) == 0.0
    requires 25.0 <= a < 30.0 && 25.0 <= b < 30.0 && 25.0 <= c < 30.0 && 25.0 <= d < 30.0
    ensures StepFile(f.id, d)(StepFile(f.id, c)(StepFile(f.id, b)(StepFile(f.id, a)(f)))).status == Completed
  {
  }

  // --------------------------------------------------------------- links

  datatype LinkForm = LinkForm(name: string, url: string, description: string)

  const EmptyLinkForm := LinkForm("", "", "")

  /** `handleAddLink` on the link list, with the fresh id and the clock
      reading as parameters. */
  function AddLink(links: seq<LinkItem>, form: LinkForm, id: string, now: int): seq<LinkItem>
  {
    if form.name == "" || form.url == "" then links
    else links + [LinkItem(id, form.name, form.url, Some(form.description), CurrentUser, now)]
  }

  /** A link without a name or a URL is not added; otherwise exactly one link
      carrying the form's fields, the fresh id, the current user and the clock
      reading is appended behind the unchanged list. */
  lemma AddLinkSpec(links: seq<LinkItem>, form: LinkForm, id: string, now: int)
    ensures form.name == "" || form.url == "" ==> AddLink(links, form, id, now) == links
    ensures form.name != "" && form.url != "" ==>
              var r := AddLink(links, form, id, now);
              |r| == |links| + 1 && r[..|links|] == links &&
              r[|links|].name == form.name && r[|links|].url == form.url &&
              r[|links|].description == Some(form.description) && r[|links|].id == id &&
              r[|links|].addedBy == CurrentUser && r[|links|].addedAt == now
  {
    if form.name != "" && form.url != "" {
      assert AddLink(links, form, id, now)[..|links|] == links;
    }
  }

  function LinkLacksId(id: string): LinkItem -> bool { (l: LinkItem) => l.id != id }

  /** `handleFileDelete`. */
  function DeleteFile(files: seq<FileItem>, id: string): seq<FileItem>
  {
    Filter(files, LacksId(id))
  }

  /** `handleLinkDelete`. */
  function DeleteLink(links: seq<LinkItem>, id: string): seq<LinkItem>
  {
    Filter(links, LinkLacksId(id))
  }

  /** Deletes remove exactly the items with the id and keep the rest in order,
      each as often as before. */
  lemma DeleteSpec(files: seq<FileItem>, links: seq<LinkItem>, id: string)
    ensures forall i :: 0 <= i < |DeleteFile(files, id)| ==> DeleteFile(files, id)[i].id != id
    ensures forall i :: 0 <= i < |files| && files[i].id != id ==> files[i] in DeleteFile(files, id)
    ensures IsSubsequence(DeleteFile(files, id), files)
    ensures forall i :: 0 <= i < |DeleteLink(links, id)| ==> DeleteLink(links, id)[i].id != id
    ensures forall i :: 0 <= i < |links| && links[i].id != id ==> links[i] in DeleteLink(links, id)
    ensures IsSubsequence(DeleteLink(links, id), links)
    ensures forall f: FileItem :: multiset(DeleteFile(files, id))[f] == if f.id == id then 0 else multiset(files)[f]
    ensures forall l: LinkItem :: multiset(DeleteLink(links, id))[l] == if l.id == id then 0 else multiset(links)[l]
  {
    forall f: FileItem ensures multiset(DeleteFile(files, id))[f] == if f.id == id then 0 else multiset(files)[f] {
      FilterMultiplicity(files, LacksId(id), f);
    }
    forall l: LinkItem ensures multiset(DeleteLink(links, id))[l] == if l.id == id then 0 else multiset(links)[l] {
      FilterMultiplicity(links, LinkLacksId(id), l);
    }
    FilterIsSubsequence(files, LacksId(id));
    FilterIsSubsequence(links, LinkLacksId(id));
  }

  // -------------------------------------------------------------- search

  function FileMatches(query: string): FileItem -> bool
  {
    (f: FileItem) => Contains(Lower(f.name), Lower(query))
  }

  /** A link matches on its name, or on its description when it has one. */
  function LinkMatches(query: string): LinkItem -> bool
  {
    (l: LinkItem) =>
      Contains(Lower(l.name), Lower(query)) ||
      (l.description.Some? && Contains(Lower(l.description.value), Lower(query)))
  }

  /** `filteredFiles`. */
  function FilteredFiles(files: seq<FileItem>, query: string): seq<FileItem>
  {
    Filter(files, FileMatches(query))
  }

  /** `filteredLinks`. */
  function FilteredLinks(links: seq<LinkItem>, query: string): seq<LinkItem>
  {
    Filter(links, LinkMatches(query))
  }

  /** The file filter keeps exactly the files whose lower-cased name holds
      the lower-cased query, in order, and everything for the empty query. */
  lemma FilteredFilesSpec(files: seq<FileItem>, query: string)
    ensures forall i :: 0 <= i < |FilteredFiles(files, query)| ==>
              Contains(Lower(FilteredFiles(files, query)[i].name), Lower(query))
    ensures forall i :: 0 <= i < |files| && Contains(Lower(files[i].name), Lower(query)) ==>
              files[i] in FilteredFiles(files, query)
    ensures IsSubsequence(FilteredFiles(files, query), files)
    ensures query == "" ==> FilteredFiles(files, query) == files
  {
    FilterIsSubsequence(files, FileMatches(query));
    if query == "" {
      forall i | 0 <= i < |files| ensures FileMatches(query)(files[i]) {
        ContainsEmpty(Lower(files[i].name));
      }
      FilterKeepsAll(files, FileMatches(query));
    }
  }

  /** The link filter keeps links in order; a link without a description is
      kept exactly when its name matches. */
  lemma FilteredLinksSpec(links: seq<LinkItem>, query: string)
    ensures forall i :: 0 <= i < |FilteredLinks(links, query)| ==> LinkMatches(query)(FilteredLinks(links, query)[i])
    ensures forall i :: 0 <= i < |links| && LinkMatches(query)(links[i]) ==> links[i] in FilteredLinks(links, query)
    ensures forall l: LinkItem :: l.description.None? ==>
              (LinkMatches(query)(l) <==> Contains(Lower(l.name), Lower(query)))
    ensures IsSubsequence(FilteredLinks(links, query), links)
    ensures query == "" ==> FilteredLinks(links, query) == links
  {
    FilterIsSubsequence(links, LinkMatches(query));
    if query == "" {
      forall i | 0 <= i < |links| ensures LinkMatches(query)(links[i]) {
        ContainsEmpty(Lower(links[i].name));
      }
      FilterKeepsAll(links, LinkMatches(query));
    }
  }

  // ------------------------------------------------------------ the panel

  /** The seeded files and link; `new Date("2024-01-15")` and
      `new Date("2024-01-14")` are UTC midnight in epoch milliseconds. */
  const InitialFiles: seq<FileItem> := [
    FileItem("1", "project-wireframes.figma", "application/figma", 2048000, Person("1", "John Doe"),
             1705276800000, Completed, None),
    FileItem("2", "design-system.pdf", "application/pdf", 5242880, Person("2", "Jane Smith"),
             1705190400000, Completed, None)
  ]

  const InitialLinks: seq<LinkItem> := [
    LinkItem("1", "Figma Design File", "https://figma.com/project-design",
             Some("Main design file with all components"), Person("1", "John Doe"), 1705276800000)
  ]

  /** The panel's state. */
  class Panel {
    var files: seq<FileItem>
    var links: seq<LinkItem>
    var searchQuery: string
    var newLink: LinkForm
    var showLinkDialog: bool

    constructor ()
      ensures files == InitialFiles && links == InitialLinks && searchQuery == ""
      ensures newLink == EmptyLinkForm && !showLinkDialog
    {
      files := InitialFiles;
      links := InitialLinks;
      searchQuery := "";
      newLink := EmptyLinkForm;
      showLinkDialog := false;
    }

    method SetSearchQuery(q: string)
      modifies this
      ensures searchQuery == q && files == old(files) && links == old(links)
      ensures newLink == old(newLink) && showLinkDialog == old(showLinkDialog)
    {
      searchQuery := q;
    }

    method SetNewLink(form: LinkForm)
      modifies this
      ensures newLink == form && files == old(files) && links == old(links)
      ensures searchQuery == old(searchQuery) && showLinkDialog == old(showLinkDialog)
    {
      newLink := form;
    }

    /** `handleFileUpload`: each dropped or chosen file, in order, is
      appended as uploading at progress 0; no file list changes nothing. */
    method HandleFileUpload(uploaded: Option<seq<Upload>>, ids: seq<string>, now: int)
      requires uploaded.Some? ==> |ids| == |uploaded.value|
      modifies this
      ensures uploaded.None? ==> files == old(files)
      ensures uploaded.Some? ==> files == old(files) + StartedFiles(uploaded.value, ids, now)
      ensures links == old(links) && searchQuery == old(searchQuery)
      ensures newLink == old(newLink) && showLinkDialog == old(showLinkDialog)
    {
      if uploaded.None? {
        return;
      }
      var uploads := uploaded.value;
      var i := 0;
      while i < |uploads|
        invariant 0 <= i <= |uploads|
        invariant files == old(files) + StartedFiles(uploads[..i], ids[..i], now)
        invariant links == old(links) && searchQuery == old(searchQuery)
        invariant newLink == old(newLink) && showLinkDialog == old(showLinkDialog)
      {
        var newFile := StartedFile(uploads[i], ids[i], now);
        files := files + [newFile];
        assert StartedFiles(uploads[..i + 1], ids[..i + 1], now) ==
               StartedFiles(uploads[..i], ids[..i], now) + [newFile];
        i := i + 1;
      }
      assert uploads[..i] == uploads && ids[..i] == ids;
    }

    /** One tick of the upload interval of file `id`. */
    method UploadTick(id: string, increment: real)
      requires 0.0 <= increment < 30.0
      modifies this
      ensures files == ProgressStep(old(files), id, increment)
      ensures links == old(links) && searchQuery == old(searchQuery)
      ensures newLink == old(newLink) && showLinkDialog == old(showLinkDialog)
    {
      files := Map(files, StepFile(id, increment));
    }

    method HandleFileDelete(id: string)
      modifies this
      ensures files == DeleteFile(old(files), id)
      ensures links == old(links) && searchQuery == old(searchQuery)
      ensures newLink == old(newLink) && showLinkDialog == old(showLinkDialog)
    {
      files := Filter(files, LacksId(id));
    }

    method HandleLinkDelete(id: string)
      modifies this
      ensures links == DeleteLink(old(links), id)
      ensures files == old(files) && searchQuery == old(searchQuery)
      ensures newLink == old(newLink) && showLinkDialog == old(showLinkDialog)
    {
      links := Filter(links, LinkLacksId(id));
    }

    /** `handleAddLink`: with a name and a URL the link is appended, the form
      reset and the dialog closed; otherwise nothing changes. */
    method HandleAddLink(id: string, now: int)
      modifies this
      ensures links == AddLink(old(links), old(newLink), id, now)
      ensures old(newLink).name != "" && old(newLink).url != "" ==> newLink == EmptyLinkForm && !showLinkDialog
      ensures old(newLink).name == "" || old(newLink).url == "" ==>
                newLink == old(newLink) && showLinkDialog == old(showLinkDialog)
      ensures files == old(files) && searchQuery == old(searchQuery)
    {
      if newLink.name == "" || newLink.url == "" {
        return;
      }
      var link := LinkItem(id, newLink.name, newLink.url, Some(newLink.description), CurrentUser, now);
      links := links + [link];
      newLink := EmptyLinkForm;
      showLinkDialog := false;
    }
  }
}
