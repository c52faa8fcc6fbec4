/**
 * The conversation folder before and after a tool call. chainlit_app/app.py
 * snapshots `{file name: mtime}` of the regular files, reports every file
 * that is new or whose mtime changed, and splits them into images and
 * other files by lower-cased extension. ui/chat.py compares plain name sets
 * and keeps only new images, which it adds to the history as one user
 * message.
 */
module Workspace {
  import opened Wrappers
  import opened Text
  import PyDict
  import opened Messages

  /** A name `os.listdir` lists, whether `os.path.isfile` holds of it, and its modification time. */
  datatype Entry = Entry(name: string, isFile: bool, mtime: int)

  /** The folder as the file system shows it: missing (or not configured), or its listing in `os.listdir` order. */
  datatype Folder = Missing | Listed(entries: seq<Entry>)

  /** `{file name: mtime}` in listing order. */
  type Snapshot = PyDict.Dict<int>

  /** `os.listdir` never lists a name twice. */
  predicate DistinctNames(entries: seq<Entry>)
  {
    forall i, j :: 0 <= i < j < |entries| ==> entries[i].name != entries[j].name
  }

  /** The snapshot built from a listing: each regular file's mtime stored under its name. */
  function SnapshotOf(entries: seq<Entry>): Snapshot
    decreases |entries|
  {
    if |entries| == 0 then []
    else
      var s := SnapshotOf(entries[..|entries| - 1]);
      var e := entries[|entries| - 1];
      if e.isFile then PyDict.Put(s, e.name, e.mtime) else s
  }

  /** A snapshot holds exactly the regular files of the listing, each with its own mtime. */
  lemma {:induction false} SnapshotSpec(entries: seq<Entry>)
    requires DistinctNames(entries)
    ensures var s := SnapshotOf(entries);
      && PyDict.Valid(s)
      && (forall n :: PyDict.Has(s, n) <==> exists i :: 0 <= i < |entries| && entries[i].isFile && entries[i].name == n)
      && (forall i :: 0 <= i < |entries| && entries[i].isFile ==> PyDict.Has(s, entries[i].name) && PyDict.Get(s, entries[i].name) == entries[i].mtime)
    decreases |entries|
  {
    if |entries| > 0 {
      var pre := entries[..|entries| - 1];
      var e := entries[|entries| - 1];
      SnapshotSpec(pre);
      var s := SnapshotOf(pre);
      var r := SnapshotOf(entries);
      assert forall i :: 0 <= i < |pre| ==> pre[i] == entries[i];
      if e.isFile {
        assert r == PyDict.Put(s, e.name, e.mtime);
        PyDict.PutSpec(s, e.name, e.mtime);
        forall n ensures PyDict.Has(r, n) <==> exists i :: 0 <= i < |entries| && entries[i].isFile && entries[i].name == n {
          if n == e.name {
            assert entries[|entries| - 1].name == n;
          } else if PyDict.Has(r, n) {
            var i :| 0 <= i < |pre| && pre[i].isFile && pre[i].name == n;
            assert entries[i].isFile && entries[i].name == n;
          }
        }
        forall i | 0 <= i < |entries| && entries[i].isFile ensures PyDict.Has(r, entries[i].name) && PyDict.Get(r, entries[i].name) == entries[i].mtime {
          if i < |pre| {
            assert entries[i].name != e.name;
          }
        }
      } else {
        assert r == s;
        forall n ensures PyDict.Has(r, n) <==> exists i :: 0 <= i < |entries| && entries[i].isFile && entries[i].name == n {
          if PyDict.Has(r, n) {
            var i :| 0 <= i < |pre| && pre[i].isFile && pre[i].name == n;
            assert entries[i].isFile && entries[i].name == n;
          }
        }
      }
    }
  }

  /** `get_files_state`: the regular files of the folder with their mtimes; a missing folder gives `{}`. */
  method GetFilesState(folder: Folder) returns (s: Snapshot)
    ensures s == if folder.Missing? then [] else SnapshotOf(folder.entries)
  {
    s := [];
    if folder.Listed? {
      var entries := folder.entries;
      var i := 0;
      while i < |entries|
        invariant 0 <= i <= |entries|
        invariant s == SnapshotOf(entries[..i])
      {
        assert entries[..i + 1][..i] == entries[..i];
        var e := entries[i];
        if e.isFile {
          s := PyDict.Put(s, e.name, e.mtime);
        }
        i := i + 1;
      }
      assert entries[..i] == entries;
    }
  }

  /** The file is worth reporting: absent before, or present with another mtime. */
  predicate Changed(before: Snapshot, name: string, mtime: int)
  {
    !PyDict.Has(before, name) || PyDict.Get(before, name) != mtime
  }

  /** The names of `after` that changed, in `after`'s order. */
  function NewOrModified(before: Snapshot, after: Snapshot): (r: seq<string>)
    ensures |r| <= |after|
    decreases |after|
  {
    if |after| == 0 then []
    else
      var rest := NewOrModified(before, after[..|after| - 1]);
      var last := after[|after| - 1];
      if Changed(before, last.0, last.1) then rest + [last.0] else rest
  }

  /**
   * A name is reported exactly when it is in the new snapshot and was either
   * absent from the old one or had another mtime there; so a deleted file is
   * never reported.
   */
  lemma {:induction false} NewOrModifiedSpec(before: Snapshot, after: Snapshot)
    requires PyDict.Valid(after)
    ensures forall n :: n in NewOrModified(before, after) <==> PyDict.Has(after, n) && Changed(before, n, PyDict.Get(after, n))
    decreases |after|
  {
    if |after| > 0 {
      var pre := after[..|after| - 1];
      var last := after[|after| - 1];
      NewOrModifiedSpec(before, pre);
      forall n ensures PyDict.Has(after, n) <==> PyDict.Has(pre, n) || n == last.0 {
        if PyDict.Has(after, n) && n != last.0 {
          var i := PyDict.IndexOf(after, n);
          assert pre[i].0 == n;
        }
        if PyDict.Has(pre, n) {
          var i := PyDict.IndexOf(pre, n);
          assert after[i].0 == n;
        }
      }
      forall n | PyDict.Has(pre, n) ensures PyDict.Get(after, n) == PyDict.Get(pre, n) {
        var i := PyDict.IndexOf(pre, n);
        assert after[i] == pre[i];
        PyDict.IndexOfUnique(after, i);
      }
      PyDict.IndexOfUnique(after, |after| - 1);
      assert forall j :: 0 <= j < |pre| ==> pre[j].0 != last.0;
    }
  }

  /** Deleted files are never reported. */
  lemma DeletedNotReported(before: Snapshot, after: Snapshot, n: string)
    requires PyDict.Valid(after) && PyDict.Has(before, n) && !PyDict.Has(after, n)
    ensures n !in NewOrModified(before, after)
  {
    NewOrModifiedSpec(before, after);
  }

  /** The new-or-modified loop of `check_and_process_new_files`. */
  method FindNewOrModified(before: Snapshot, after: Snapshot) returns (r: seq<string>)
    ensures r == NewOrModified(before, after)
  {
    r := [];
    var i := 0;
    while i < |after|
      invariant 0 <= i <= |after|
      invariant r == NewOrModified(before, after[..i])
    {
      assert after[..i + 1][..i] == after[..i];
      var (name, mtime) := after[i];
      if !PyDict.Has(before, name) || PyDict.Get(before, name) != mtime {
        r := r + [name];
      }
      i := i + 1;
    }
    assert after[..i] == after;
  }

  /** `image_extensions` */
  const ImageExtensions: set<string> := {".png", ".jpg", ".jpeg", ".gif", ".bmp", ".webp", ".svg"}

  /** The lower-cased name's extension is an image extension. */
  predicate IsImageName(f: string)
  {
    Splitext(ToLowerAscii(f)).1 in ImageExtensions
  }

  /** The names that are images, in order. */
  function ImagesOf(names: seq<string>): (r: seq<string>)
    ensures forall x :: x in r <==> x in names && IsImageName(x)
    decreases |names|
  {
    if |names| == 0 then []
    else
      var pre := names[..|names| - 1];
      var last := names[|names| - 1];
      assert names == pre + [last];
      if IsImageName(last) then ImagesOf(pre) + [last] else ImagesOf(pre)
  }

  /** The names that are not images, in order. */
  function OthersOf(names: seq<string>): (r: seq<string>)
    ensures forall x :: x in r <==> x in names && !IsImageName(x)
    decreases |names|
  {
    if |names| == 0 then []
    else
      var pre := names[..|names| - 1];
      var last := names[|names| - 1];
      assert names == pre + [last];
      if IsImageName(last) then OthersOf(pre) else OthersOf(pre) + [last]
  }

  /** Every reported name goes to exactly one of the two lists, and none is lost or duplicated. */
  lemma {:induction false} ClassifyPartition(names: seq<string>)
    ensures |ImagesOf(names)| + |OthersOf(names)| == |names|
    ensures multiset(ImagesOf(names)) + multiset(OthersOf(names)) == multiset(names)
    decreases |names|
  {
    if |names| > 0 {
      var pre := names[..|names| - 1];
      ClassifyPartition(pre);
      assert names == pre + [names[|names| - 1]];
    }
  }

  /** The split by extension in `check_and_process_new_files`. */
  method Classify(names: seq<string>) returns (images: seq<string>, others: seq<string>)
    ensures images == ImagesOf(names) && others == OthersOf(names)
  {
    images, others := [], [];
    var i := 0;
    while i < |names|
      invariant 0 <= i <= |names|
      invariant images == ImagesOf(names[..i]) && others == OthersOf(names[..i])
    {
      assert names[..i + 1][..i] == names[..i];
      var f := names[i];
      var (_, extension) := Splitext(ToLowerAscii(f));
      if extension in ImageExtensions {
        images := images + [f];
      } else {
        others := others + [f];
      }
      i := i + 1;
    }
    assert names[..i] == names;
  }

  /** Upper-case extensions count. */
  lemma UpperCaseImage()
    ensures IsImageName("chart.PNG")
  {
    var lower := ToLowerAscii("chart.PNG");
    assert lower == "chart" + ".png";
    SplitextOfStemAndExt("chart", ".png");
  }

  /** A hidden file named like an extension is not an image: `splitext(".png")` has no extension. */
  lemma HiddenFileNotImage()
    ensures !IsImageName(".png")
  {
    var lower := ToLowerAscii(".png");
    assert lower == ".png";
    assert lower[..3] == ".pn" && ".pn"[..2] == ".p" && ".p"[..1] == ".";
    assert LastIndexOf(".", '.') == 0;
    assert LastIndexOf(".p", '.') == 0;
    assert LastIndexOf(".pn", '.') == 0;
    assert LastIndexOf(lower, '.') == 0;
    assert Splitext(lower).1 == "";
  }

  /** The notice listing what was produced, e.g. "🖼️ 產生了 2 個圖片檔案、📁 產生了 1 個檔案可供下載". */
  function FilesNotice(images: nat, others: nat): (r: string)
    ensures r == "" <==> images == 0 && others == 0
    ensures images > 0 && others == 0 ==> r == ImagesPhrase(images)
    ensures images == 0 && others > 0 ==> r == OthersPhrase(others)
    ensures images > 0 && others > 0 ==> r == ImagesPhrase(images) + "、" + OthersPhrase(others)
  {
    var parts := (if images > 0 then [ImagesPhrase(images)] else [])
               + (if others > 0 then [OthersPhrase(others)] else []);
    assert images > 0 && others > 0 ==> parts == [ImagesPhrase(images), OthersPhrase(others)] && parts[1..] == [OthersPhrase(others)];
    assert images > 0 && others > 0 ==> Join(parts, "、") == ImagesPhrase(images) + "、" + Join(parts[1..], "、");
    assert images > 0 && others > 0 ==> Join(parts[1..], "、") == OthersPhrase(others);
    assert images > 0 || others > 0 ==> Join(parts, "、") != "";
    Join(parts, "、")
  }

  /** The phrase for the images produced, with their count. */
  function ImagesPhrase(n: nat): (r: string)
    ensures StartsWith(r, "🖼️ 產生了 ") && r != ""
  {
    "🖼️ 產生了 " + NatToString(n) + " 個圖片檔案"
  }

  /** The phrase for the other files produced, with their count. */
  function OthersPhrase(n: nat): (r: string)
    ensures StartsWith(r, "📁 產生了 ") && r != ""
  {
    "📁 產生了 " + NatToString(n) + " 個檔案可供下載"
  }

  /** What the check after a tool call produced: nothing, or a notice and the (possibly extended) history. */
  datatype FilesOutcome = NothingNew | Reported(images: seq<string>, others: seq<string>, notice: string, history: seq<Message>)

  /** The first image (in order) that cannot be read, if any. */
  function FirstUnreadable(images: seq<string>, readError: string -> Option<string>): (r: Option<string>)
    ensures r.Some? <==> exists f :: f in images && readError(f).Some?
    decreases |images|
  {
    if |images| == 0 then None
    else match readError(images[0])
      case Some(msg) => Some(msg)
      case None =>
        assert forall f :: f in images[1..] ==> f in images;
        assert forall f :: f in images && f != images[0] ==> f in images[1..];
        FirstUnreadable(images[1..], readError)
  }

  /**
   * `check_and_process_new_files(existing, append_to_history)`: with no folder
   * or nothing new, nothing happens; otherwise every new image is read (the
   * first one that cannot be read raises out of the check), a notice is
   * sent, and with `append_to_history` one assistant message holding an
   * image part per image is added to the history.
   */
  function CheckNewFiles(before: Snapshot, folder: Folder, appendToHistory: bool,
                         readError: string -> Option<string>, history: seq<Message>): (r: Result<FilesOutcome, string>)
  {
    if folder.Missing? then Ok(NothingNew)
    else
      var changed := NewOrModified(before, SnapshotOf(folder.entries));
      if changed == [] then Ok(NothingNew)
      else
        var images := ImagesOf(changed);
        var others := OthersOf(changed);
        match FirstUnreadable(images, readError)
        case Some(msg) => Err(msg)
        case None =>
          var h := if appendToHistory && images != [] then history + [AssistantParts(ImagePartsOf(images))] else history;
          Ok(Reported(images, others, FilesNotice(|images|, |others|), h))
  }

  /**
   * A report names at least one file and only images among its images, and
   * the history grows by exactly one image message when asked to and there
   * are images; a check that raises does so for a new image that cannot be read.
   */
  lemma CheckNewFilesSpec(before: Snapshot, folder: Folder, appendToHistory: bool,
                          readError: string -> Option<string>, history: seq<Message>)
    ensures var r := CheckNewFiles(before, folder, appendToHistory, readError, history);
      && (r.Ok? && r.value.Reported? ==>
        && r.value.images + r.value.others != []
        && (forall n :: n in r.value.images ==> IsImageName(n))
        && (r.value.history == if appendToHistory && r.value.images != [] then history + [AssistantParts(ImagePartsOf(r.value.images))] else history))
      && (r.Err? ==> folder.Listed? && exists f :: f in NewOrModified(before, SnapshotOf(folder.entries)) && IsImageName(f) && readError(f).Some?)
  {
    if folder.Listed? {
      ClassifyPartition(NewOrModified(before, SnapshotOf(folder.entries)));
    }
  }

  /** One image part per file, in order. */
  function ImagePartsOf(files: seq<string>): (r: seq<Part>)
    ensures |r| == |files| && forall i :: 0 <= i < |files| ==> r[i] == ImagePart(files[i])
  {
    seq(|files|, i requires 0 <= i < |files| => ImagePart(files[i]))
  }

  /** A call that only removes files, or rewrites one with its old mtime, reports nothing. */
  lemma {:induction false} NothingChangedNothingReported(before: Snapshot, entries: seq<Entry>, readError: string -> Option<string>, history: seq<Message>)
    requires DistinctNames(entries)
    requires forall i :: 0 <= i < |entries| && entries[i].isFile ==> PyDict.Has(before, entries[i].name) && PyDict.Get(before, entries[i].name) == entries[i].mtime
    ensures CheckNewFiles(before, Listed(entries), true, readError, history) == Ok(NothingNew)
  {
    var after := SnapshotOf(entries);
    SnapshotSpec(entries);
    NewOrModifiedSpec(before, after);
  }

  // ui/chat.py

  /** ui/chat.py's new images: names listed now and not before (mtime ignored), with an image extension. */
  function NewImages(existing: set<string>, current: set<string>): (r: set<string>)
    ensures forall f :: f in r <==> f in current && f !in existing && IsImageName(f)
  {
    set f | f in current - existing && IsImageName(f)
  }

  /**
   * The new images in the order the current listing gives them, each once;
   * it enumerates exactly `NewImages` of the two listings.
   */
  function NewImageOrder(existing: set<string>, current: seq<string>): (r: seq<string>)
    ensures forall f :: f in r <==> f in current && f !in existing && IsImageName(f)
    ensures forall i, j :: 0 <= i < j < |r| ==> r[i] != r[j]
    decreases |current|
  {
    if |current| == 0 then []
    else
      var pre := current[..|current| - 1];
      var last := current[|current| - 1];
      assert current == pre + [last];
      var rest := NewImageOrder(existing, pre);
      if last !in existing && IsImageName(last) && last !in rest then rest + [last] else rest
  }

  /** The image parts of the files that could be read, in the given order. */
  function ReadableParts(files: seq<string>, readable: string -> bool): (r: seq<Part>)
    ensures forall p :: p in r <==> exists f :: f in files && readable(f) && p == ImagePart(f)
    ensures |r| <= |files|
    decreases |files|
  {
    if |files| == 0 then []
    else
      var pre := files[..|files| - 1];
      var last := files[|files| - 1];
      assert files == pre + [last];
      ReadableParts(pre, readable) + (if readable(last) then [ImagePart(last)] else [])
  }

  /**
   * `check_and_process_new_images`: `order` is the order in which the set of
   * new images is iterated. With no new image nothing changes; otherwise one
   * user message is appended holding a part for each image that could be
   * read (possibly none).
   */
  method CheckNewImages(folderExists: bool, existing: set<string>, current: set<string>, order: seq<string>,
                        readable: string -> bool, history: seq<Message>) returns (h: seq<Message>)
    requires forall f :: f in order <==> f in NewImages(existing, current)
    requires forall i, j :: 0 <= i < j < |order| ==> order[i] != order[j]
    ensures !folderExists || NewImages(existing, current) == {} ==> h == history
    ensures folderExists && NewImages(existing, current) != {} ==> h == history + [UserParts(ReadableParts(order, readable))]
  {
    if !folderExists {
      return history;
    }
    if |order| == 0 {
      assert forall f :: f !in NewImages(existing, current);
      return history;
    }
    var parts: seq<Part> := [];
    var i := 0;
    while i < |order|
      invariant 0 <= i <= |order|
      invariant parts == ReadableParts(order[..i], readable)
    {
      assert order[..i + 1][..i] == order[..i];
      if readable(order[i]) {
        parts := parts + [ImagePart(order[i])];
      }
      i := i + 1;
    }
    assert order[..i] == order;
    assert order[0] in NewImages(existing, current);
    h := history + [UserParts(parts)];
  }
}
