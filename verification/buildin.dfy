/**
 * The string rules of the built-in tool server, mcp_servers/buildin.py:
 * where a download is written and what it is called, the file names of a
 * transcription, the YouTube content-type dispatch with its subtitle
 * search, the conversation folder taken from the client's first root,
 * and the text of a folder listing. Network, media and file contents are
 * parameters.
 */
module Buildin {
  import opened Wrappers
  import opened Text
  import McpSession
  import LegacyManager

  /** `os.path.join(a, b)` on POSIX: an absolute `b` replaces `a`. */
  function PathJoin(a: string, b: string): (r: string)
    ensures StartsWith(b, "/") ==> r == b
    ensures !StartsWith(b, "/") && a != "" && a[|a| - 1] != '/' ==> r == a + "/" + b
  {
    if StartsWith(b, "/") then b
    else if a == "" || a[|a| - 1] == '/' then a + b
    else a + "/" + b
  }

  // ---------------------------------------------------------------- downloads

  /** The name from `Content-Disposition`: after the first `filename=`, up to any next one, outer quotes stripped; "" without one. */
  function HeaderFilename(contentDisposition: Option<string>): (r: string)
    ensures contentDisposition.None? ==> r == ""
    ensures r != "" ==> r[0] != '"' && r[|r| - 1] != '"'
  {
    if contentDisposition.Some? && Contains(contentDisposition.value, "filename=") then
      StripChar(SecondField(contentDisposition.value, "filename="), '"')
    else ""
  }

  /** The name from the URL: its last `/` segment cut at the first `?`, or `downloaded_file` when that has no dot. */
  function UrlFilename(url: string): (r: string)
    ensures r != "" && '/' !in r && '?' !in r
    ensures '.' in r || r == "downloaded_file"
  {
    var name := BeforeFirst(AfterLast(url, '/'), '?');
    assert '/' !in name by {
      forall k | 0 <= k < |name| ensures name[k] != '/' {
        assert name[k] == AfterLast(url, '/')[k];
      }
    }
    if name == "" || '.' !in name then "downloaded_file" else name
  }

  /** The file name `download_file_with_url` derives (lines 59-71): the header's when it gives one, else the URL's. */
  function DerivedFilename(contentDisposition: Option<string>, url: string): (r: string)
    ensures r != ""
    ensures HeaderFilename(contentDisposition) != "" ==> r == HeaderFilename(contentDisposition)
    ensures HeaderFilename(contentDisposition) == "" ==> r == UrlFilename(url) && '/' !in r
  {
    var h := HeaderFilename(contentDisposition);
    if h != "" then h else UrlFilename(url)
  }

  /** Line 74 as written: the derived name joined to the conversation folder. */
  function DownloadPathAsWritten(folder: string, contentDisposition: Option<string>, url: string): string
  {
    PathJoin(folder, DerivedFilename(contentDisposition, url))
  }

  /** A server's `Content-Disposition` can name an absolute path, which `os.path.join` then writes to instead of the folder. */
  lemma HeaderNameEscapesFolder()
    ensures DownloadPathAsWritten(".files/abc", Some("filename=/etc/x.sh"), "http://h/a.txt") == "/etc/x.sh"
    ensures !StartsWith("/etc/x.sh", ".files/abc/")
  {
    AbsoluteHeaderName();
    assert StartsWith("/etc/x.sh", "/");
  }

  /** The header `filename=/etc/x.sh` names the absolute path `/etc/x.sh`. */
  lemma AbsoluteHeaderName()
    ensures HeaderFilename(Some("filename=/etc/x.sh")) == "/etc/x.sh"
  {
    var cd := "filename=/etc/x.sh";
    assert cd[..9] == "filename=";
    assert Find(cd, "filename=") == 0;
    var rest := cd[9..];
    assert rest == "/etc/x.sh";
    assert rest[..9] != "filename=" by { assert rest[..9][0] == '/'; }
    assert |rest[1..]| < 9;
    assert Find(rest, "filename=") == -1;
    assert SecondField(cd, "filename=") == "/etc/x.sh";
    assert StripChar("/etc/x.sh", '"') == "/etc/x.sh";
  }

  /** The name kept for writing: the last path segment of the derived name, or `downloaded_file` when that is empty, `.` or `..`. */
  function SafeFilename(name: string): (r: string)
    ensures r != "" && r != "." && r != ".." && '/' !in r
    ensures '/' !in name && name != "" && name != "." && name != ".." ==> r == name
  {
    var b := AfterLast(name, '/');
    if b == "" || b == "." || b == ".." then "downloaded_file" else b
  }

  /** Where a download is written, as the comment at line 73 intends: a file directly inside the conversation folder. */
  function DownloadPath(folder: string, contentDisposition: Option<string>, url: string): (r: string)
  {
    PathJoin(folder, SafeFilename(DerivedFilename(contentDisposition, url)))
  }

  /** A plain name goes directly under a folder that has no trailing separator. */
  lemma JoinPlainName(folder: string, name: string)
    requires folder != "" && folder[|folder| - 1] != '/'
    requires name != "" && '/' !in name
    ensures PathJoin(folder, name) == folder + "/" + name
  {
    assert name[0] != '/';
  }

  /** Every download lands directly inside the folder, and URL-derived names other than `.` and `..` are kept as the code derives them. */
  lemma DownloadStaysInFolder(folder: string, contentDisposition: Option<string>, url: string)
    requires folder != "" && folder[|folder| - 1] != '/'
    ensures var name := SafeFilename(DerivedFilename(contentDisposition, url));
      && DownloadPath(folder, contentDisposition, url) == folder + "/" + name
      && '/' !in name && name != "." && name != ".."
    ensures HeaderFilename(contentDisposition) == "" && UrlFilename(url) != "." && UrlFilename(url) != ".." ==>
      DownloadPath(folder, contentDisposition, url) == DownloadPathAsWritten(folder, contentDisposition, url)
  {
    var d := DerivedFilename(contentDisposition, url);
    var name := SafeFilename(d);
    JoinPlainName(folder, name);
    if HeaderFilename(contentDisposition) == "" && UrlFilename(url) != "." && UrlFilename(url) != ".." {
      assert d == UrlFilename(url);
      assert name == d;
    }
  }

  /** What fetching the URL gave: a `RequestException`, or a response with its `Content-Disposition`, if any. */
  datatype Fetch = FetchFailed(message: string) | Fetched(contentDisposition: Option<string>)

  /**
   * `download_file_with_url`'s answer, as written: the response is saved at
   * the derived name joined to the folder, and the answer repeats that name;
   * `writeError(path)` is the error, if any, of writing to that path.
   */
  function DownloadAnswer(folder: string, url: string, fetch: Fetch, writeError: string -> Option<string>): (r: string)
    ensures fetch.FetchFailed? ==> r == "下載失敗: " + fetch.message
    ensures fetch.Fetched? && writeError(DownloadPathAsWritten(folder, fetch.contentDisposition, url)).None? ==>
      r == "檔案已成功下載到: " + DerivedFilename(fetch.contentDisposition, url)
    ensures fetch.Fetched? && writeError(DownloadPathAsWritten(folder, fetch.contentDisposition, url)).Some? ==>
      r == "發生錯誤: " + writeError(DownloadPathAsWritten(folder, fetch.contentDisposition, url)).value
  {
    match fetch
    case FetchFailed(m) => "下載失敗: " + m
    case Fetched(cd) =>
      var name := DerivedFilename(cd, url);
      match writeError(PathJoin(folder, name))
      case Some(e) => "發生錯誤: " + e
      case None => "檔案已成功下載到: " + name
  }

  /** A header naming an absolute path makes the download write there and say so. */
  lemma AbsoluteHeaderNameAnswered(folder: string, url: string, writeError: string -> Option<string>)
    requires writeError("/etc/x.sh").None?
    ensures DownloadAnswer(folder, url, Fetched(Some("filename=/etc/x.sh")), writeError) == "檔案已成功下載到: /etc/x.sh"
  {
    var cd := Some("filename=/etc/x.sh");
    AbsoluteHeaderName();
    assert DerivedFilename(cd, url) == "/etc/x.sh";
    assert StartsWith("/etc/x.sh", "/");
    assert DownloadPathAsWritten(folder, cd, url) == "/etc/x.sh";
  }

  /**
   * The answer with the download kept inside the folder, as the comment at
   * line 73 intends: the file is written directly in the folder under the
   * kept name, and the answer names that file.
   */
  function SafeDownloadAnswer(folder: string, url: string, fetch: Fetch, writeError: string -> Option<string>): (r: string)
    requires folder != "" && folder[|folder| - 1] != '/'
    ensures fetch.FetchFailed? ==> r == "下載失敗: " + fetch.message
    ensures fetch.Fetched? ==>
      var name := SafeFilename(DerivedFilename(fetch.contentDisposition, url));
      var path := folder + "/" + name;
      && '/' !in name && name != "." && name != ".."
      && (writeError(path).None? ==> r == "檔案已成功下載到: " + name)
      && (writeError(path).Some? ==> r == "發生錯誤: " + writeError(path).value)
  {
    match fetch
    case FetchFailed(m) => "下載失敗: " + m
    case Fetched(cd) =>
      DownloadStaysInFolder(folder, cd, url);
      var name := SafeFilename(DerivedFilename(cd, url));
      match writeError(DownloadPath(folder, cd, url))
      case Some(e) => "發生錯誤: " + e
      case None => "檔案已成功下載到: " + name
  }

  // ------------------------------------------------------------ transcription

  const SupportedFormats: seq<string> := [".mp3", ".mp4", ".mpeg", ".mpga", ".m4a", ".wav", ".webm", ".ogg"]

  /** The files of one transcription: the audio, its compressed copy and the transcript. */
  datatype TranscriptionFiles = TranscriptionFiles(audio: string, compressed: string, transcript: string)

  /** The checks and names of `transcription` (lines 112-124, 176). */
  function TranscriptionStart(filename: string, fileExists: bool): (r: Result<TranscriptionFiles, string>)
    ensures !fileExists ==> r == Err("檔案不存在: " + filename)
    ensures r.Ok? <==> fileExists && ToLowerAscii(Splitext(filename).1) in SupportedFormats
    ensures r.Ok? ==> var base := Splitext(filename).0;
      && r.value.audio == filename
      && r.value.compressed == base + "_compressed.ogg"
      && r.value.transcript == base + "_transcript.txt"
  {
    if !fileExists then Err("檔案不存在: " + filename)
    else
      var ext := ToLowerAscii(Splitext(filename).1);
      if ext !in SupportedFormats then Err("不支援的檔案格式: " + ext + "。支援的格式: " + Join(SupportedFormats, ", "))
      else
        var base := Splitext(filename).0;
        Ok(TranscriptionFiles(filename, base + "_compressed.ogg", base + "_transcript.txt"))
  }

  /** Upper-case extensions are accepted too: the check is on the lower-cased extension. */
  lemma UpperCaseAudioAccepted()
    ensures TranscriptionStart("talk.MP3", true).Ok?
  {
    assert Splitext("talk.MP3") == ("talk", ".MP3") by {
      assert "talk" + ".MP3" == "talk.MP3";
      assert '.' !in ".MP3"[1..];
      SplitextOfStemAndExt("talk", ".MP3");
    }
    assert ToLowerAscii(".MP3") == ".mp3";
  }

  /** The derived names never overwrite the audio file or each other. */
  lemma TranscriptionNamesDistinct(filename: string)
    requires TranscriptionStart(filename, true).Ok?
    ensures var f := TranscriptionStart(filename, true).value;
      f.compressed != f.audio && f.transcript != f.audio && f.compressed != f.transcript
  {
    var f := TranscriptionStart(filename, true).value;
    var (base, ext) := Splitext(filename);
    assert ToLowerAscii(ext) in SupportedFormats;
    assert |ext| == |ToLowerAscii(ext)| > 0;
    DerivedNamesDistinct(base, ext, f);
  }

  /** Suffixes that start differently from the extension keep the derived names apart. */
  lemma DerivedNamesDistinct(base: string, ext: string, f: TranscriptionFiles)
    requires ext != "" && ext[0] == '.'
    requires f.audio == base + ext
    requires f.compressed == base + "_compressed.ogg" && f.transcript == base + "_transcript.txt"
    ensures f.compressed != f.audio && f.transcript != f.audio && f.compressed != f.transcript
  {
    assert f.compressed[|base|] == '_' && f.audio[|base|] == '.';
    assert f.transcript[|base|] == '_';
    assert f.compressed[|base| + 1] == 'c' && f.transcript[|base| + 1] == 't';
  }

  /** The file sent for transcription: the compressed copy when compression worked, else the original; only the copy is removed afterwards. */
  function TranscribedFile(files: TranscriptionFiles, compressed: bool): (r: (string, bool))
    ensures r.1 <==> compressed
    ensures r.0 == if compressed then files.compressed else files.audio
  {
    if compressed then (files.compressed, true) else (files.audio, false)
  }

  // ---------------------------------------------------------- folder listing

  /** An entry of `os.listdir`: a file with its size, a directory, or something that is neither. */
  datatype DirItem = FileItem(name: string, size: nat) | DirItem(name: string) | OtherItem(name: string)

  /** The folder as `_list_files_internal` finds it. */
  datatype FolderState = NoFolder | ListFailed(message: string) | Items(items: seq<DirItem>)

  /** The three digits of `n`, with leading zeros. */
  function Pad3(n: nat): (r: string)
    requires n < 1000
    ensures |r| == 3 && forall i :: 0 <= i < 3 ==> IsDigit(r[i])
  {
    [DigitChar(n / 100), DigitChar(n / 10 % 10), DigitChar(n % 10)]
  }

  /** `f"{n:,}"`: the decimal digits in groups of three, separated by commas. */
  function Grouped(n: nat): string
  {
    if n < 1000 then NatToString(n) else Grouped(n / 1000) + "," + Pad3(n % 1000)
  }

  /** The size text; sizes above 1024 bytes are written in KB or MB with one decimal, given as `scaled`. */
  function SizeText(size: nat, scaled: nat -> string): string
  {
    if size > 1024 then scaled(size) else Grouped(size) + " bytes"
  }

  function ItemLines(item: DirItem, scaled: nat -> string): (r: seq<string>)
    ensures |r| <= 1
    ensures r == [] <==> item.OtherItem?
  {
    match item
    case FileItem(name, size) => [name + " (" + SizeText(size, scaled) + ")"]
    case DirItem(name) => [name + "/ (資料夾)"]
    case OtherItem(_) => []
  }

  function ListingLines(items: seq<DirItem>, scaled: nat -> string): (r: seq<string>)
    ensures |r| <= |items|
  {
    if |items| == 0 then [] else ListingLines(items[..|items| - 1], scaled) + ItemLines(items[|items| - 1], scaled)
  }

  /** No line exactly when no entry is a file or a directory. */
  lemma {:induction false} ListingLinesEmpty(items: seq<DirItem>, scaled: nat -> string)
    ensures ListingLines(items, scaled) == [] <==> forall i :: 0 <= i < |items| ==> items[i].OtherItem?
  {
    if |items| > 0 {
      var init := items[..|items| - 1];
      var last := ItemLines(items[|items| - 1], scaled);
      assert ListingLines(items, scaled) == ListingLines(init, scaled) + last;
      assert last == [] <==> items[|items| - 1].OtherItem?;
      ListingLinesEmpty(init, scaled);
      if forall i :: 0 <= i < |init| ==> init[i].OtherItem? {
        if items[|items| - 1].OtherItem? {
          forall i | 0 <= i < |items| ensures items[i].OtherItem? {
            if i < |init| { assert items[i] == init[i]; }
          }
        }
      } else {
        var i :| 0 <= i < |init| && !init[i].OtherItem?;
        assert items[i] == init[i];
      }
    }
  }

  /** `_list_files_internal`'s answer. */
  function ListFilesText(state: FolderState, scaled: nat -> string): (r: string)
  {
    match state
    case NoFolder => "資料夾不存在"
    case ListFailed(m) => "列出檔案時發生錯誤: " + m
    case Items(items) =>
      var lines := ListingLines(items, scaled);
      if lines == [] then "資料夾是空的" else "檔案列表:\n" + Join(lines, "\n")
  }

  /** `_list_files_internal`: one line per file or directory, in listing order. */
  method ListFilesInternal(state: FolderState, scaled: nat -> string) returns (text: string)
    ensures text == ListFilesText(state, scaled)
  {
    match state {
      case NoFolder => return "資料夾不存在";
      case ListFailed(m) => return "列出檔案時發生錯誤: " + m;
      case Items(items) =>
        var files: seq<string> := [];
        for i := 0 to |items|
          invariant files == ListingLines(items[..i], scaled)
        {
          assert items[..i + 1][..i] == items[..i];
          match items[i] {
            case FileItem(name, size) =>
              var sizeStr := Grouped(size) + " bytes";
              if size > 1024 {
                sizeStr := scaled(size);
              }
              files := files + [name + " (" + sizeStr + ")"];
            case DirItem(name) =>
              files := files + [name + "/ (資料夾)"];
            case OtherItem(_) =>
          }
        }
        assert items[..|items|] == items;
        if files == [] {
          return "資料夾是空的";
        }
        text := "檔案列表:\n" + Join(files, "\n");
    }
  }

  /** The listing says the folder is empty exactly when it holds no file and no directory. */
  lemma EmptyFolderMessage(items: seq<DirItem>, scaled: nat -> string)
    ensures ListFilesText(Items(items), scaled) == "資料夾是空的" <==> forall i :: 0 <= i < |items| ==> items[i].OtherItem?
  {
    ListingLinesEmpty(items, scaled);
    var lines := ListingLines(items, scaled);
    if lines != [] {
      var t := "檔案列表:\n" + Join(lines, "\n");
      assert t[0] == '檔' && "資料夾是空的"[0] == '資';
    }
  }

  // ------------------------------------------------------------ YouTube tool

  datatype ContentKind = Audio | Video | Subtitle

  const ContentTypeError := "content_type 只能是 'audio'、'video' 或 'subtitle'"

  /** The `content_type` dispatch: the three kinds, anything else a ValueError. */
  function ParseContentType(s: string): (r: Result<ContentKind, string>)
    ensures r.Ok? <==> s in {"audio", "video", "subtitle"}
    ensures r.Err? ==> r.error == ContentTypeError
    ensures r == Ok(Subtitle) <==> s == "subtitle"
  {
    if s == "audio" then Ok(Audio) else if s == "video" then Ok(Video)
    else if s == "subtitle" then Ok(Subtitle) else Err(ContentTypeError)
  }

  /** Subtitle files are looked for under these suffixes, in this order. */
  const SubtitleExtensions: seq<string> := [".zh-TW.srt", ".zh-CN.srt", ".zh-Hant.srt", ".zh-Hans.srt", ".zh.srt", ".en.srt", ".srt"]

  /**
   * What trying one candidate file gives: it does not exist; it reads as
   * UTF-8; it does not decode, and then reads (or not) as UTF-8 with BOM;
   * or the first read raises something other than a decoding error.
   */
  datatype Probe = Absent | Utf8(content: string) | DecodeRetry(second: Option<string>) | ReadRaises(message: string)

  datatype SubtitleSearch = Found(content: string) | NotFound | Raised(message: string)

  /** The candidate is passed over and the search goes on. */
  predicate Skipped(p: Probe)
  {
    p.Absent? || p == DecodeRetry(None)
  }

  /** The content a candidate stops the search with, if it stops it with content. */
  function ReadContent(p: Probe): Option<string>
  {
    match p
    case Utf8(c) => Some(c)
    case DecodeRetry(Some(c)) => Some(c)
    case _ => None
  }

  /** The subtitle search from candidate `k` on. */
  function SearchFrom(probes: seq<Probe>, k: nat): SubtitleSearch
    requires k <= |probes|
    decreases |probes| - k
  {
    if k == |probes| then NotFound
    else match probes[k]
      case ReadRaises(m) => Raised(m)
      case Utf8(c) => Found(c)
      case DecodeRetry(Some(c)) => Found(c)
      case _ => SearchFrom(probes, k + 1)
  }

  /** The search finds the content of the first candidate that is not passed over, and only it. */
  lemma {:induction false} SearchFromSpec(probes: seq<Probe>, k: nat)
    requires k <= |probes|
    ensures var r := SearchFrom(probes, k);
      && (r.Found? <==> exists j :: k <= j < |probes| && ReadContent(probes[j]).Some? && forall i :: k <= i < j ==> Skipped(probes[i]))
      && (r.Found? ==> exists j :: k <= j < |probes| && ReadContent(probes[j]) == Some(r.content) && forall i :: k <= i < j ==> Skipped(probes[i]))
      && (r == NotFound <==> forall i :: k <= i < |probes| ==> Skipped(probes[i]))
    decreases |probes| - k
  {
    if k < |probes| {
      SearchFromSpec(probes, k + 1);
      var r := SearchFrom(probes, k);
      if ReadContent(probes[k]).Some? {
        assert r.Found?;
      } else if !Skipped(probes[k]) {
        assert probes[k].ReadRaises?;
        assert r.Raised?;
        assert !(exists j :: k <= j < |probes| && ReadContent(probes[j]).Some? && forall i :: k <= i < j ==> Skipped(probes[i]));
      } else {
        if exists j :: k <= j < |probes| && ReadContent(probes[j]).Some? && forall i :: k <= i < j ==> Skipped(probes[i]) {
          var j :| k <= j < |probes| && ReadContent(probes[j]).Some? && forall i :: k <= i < j ==> Skipped(probes[i]);
          assert j != k;
        }
        if r.Found? {
          var j :| k + 1 <= j < |probes| && ReadContent(probes[j]) == Some(r.content) && forall i :: k + 1 <= i < j ==> Skipped(probes[i]);
          assert forall i :: k <= i < j ==> Skipped(probes[i]);
        }
      }
    }
  }

  /** The candidates' paths: the folder joined with the video title and each suffix. */
  function SubtitlePaths(folder: string, title: string): (r: seq<string>)
    ensures |r| == |SubtitleExtensions|
  {
    seq(|SubtitleExtensions|, i requires 0 <= i < |SubtitleExtensions| => PathJoin(folder, title + SubtitleExtensions[i]))
  }

  /** The loop of lines 363-376: try each candidate in order and stop at the first read that works or raises. */
  method SearchSubtitles(folder: string, title: string, probe: string -> Probe) returns (r: SubtitleSearch)
    ensures r == SearchFrom(seq(7, i requires 0 <= i < 7 => probe(SubtitlePaths(folder, title)[i])), 0)
  {
    var paths := SubtitlePaths(folder, title);
    ghost var probes := seq(7, i requires 0 <= i < 7 => probe(paths[i]));
    var i := 0;
    while i < |paths|
      invariant 0 <= i <= 7
      invariant SearchFrom(probes, 0) == SearchFrom(probes, i)
    {
      match probe(paths[i]) {
        case Absent =>
        case Utf8(c) => return Found(c);
        case DecodeRetry(second) =>
          if second.Some? {
            return Found(second.value);
          }
        case ReadRaises(m) => return Raised(m);
      }
      i := i + 1;
    }
    r := NotFound;
  }

  /** `download_youtube` once the downloads are done; `listing` is the folder as listed afterwards. */
  function DownloadYoutube(contentType: string, subtitles: SubtitleSearch, listing: FolderState, scaled: nat -> string): (r: Result<string, string>)
    ensures ParseContentType(contentType).Err? ==> r == Err(ContentTypeError)
    ensures contentType == "subtitle" && subtitles.Found? && subtitles.content != "" ==> r == Ok(subtitles.content)
    ensures contentType == "subtitle" && subtitles.Raised? ==> r == Err(subtitles.message)
    ensures (contentType == "audio" || contentType == "video"
             || (contentType == "subtitle" && (subtitles.NotFound? || subtitles == Found("")))) ==>
      r == Ok("下載完成，請查看資料夾中的檔案列表：\n" + ListFilesText(listing, scaled))
  {
    match ParseContentType(contentType)
    case Err(e) => Err(e)
    case Ok(kind) =>
      if kind == Subtitle && subtitles.Raised? then Err(subtitles.message)
      else if kind == Subtitle && subtitles.Found? && subtitles.content != "" then Ok(subtitles.content)
      else Ok("下載完成，請查看資料夾中的檔案列表：\n" + ListFilesText(listing, scaled))
  }

  /** An empty first subtitle file ends the search: a later readable one is never used. */
  lemma EmptySubtitleStopsSearch(probes: seq<Probe>, listing: FolderState, scaled: nat -> string)
    requires |probes| >= 2 && probes[0] == Utf8("") && probes[1] == Utf8("text")
    ensures SearchFrom(probes, 0) == Found("")
    ensures DownloadYoutube("subtitle", SearchFrom(probes, 0), listing, scaled).Ok?
    ensures DownloadYoutube("subtitle", SearchFrom(probes, 0), listing, scaled) != Ok("text")
  {
    var t := "下載完成，請查看資料夾中的檔案列表：\n" + ListFilesText(listing, scaled);
    assert t[0] == '下';
  }

  // ------------------------------------------------------ conversation folder

  /** The prefix of `s` before the first character in `stops`. */
  function TakeUntil(s: string, stops: set<char>): (r: string)
    ensures |r| <= |s| && r == s[..|r|]
    ensures forall c :: c in r ==> c !in stops
    ensures |r| < |s| ==> s[|r|] in stops
    decreases |s|
  {
    if |s| == 0 || s[0] in stops then "" else [s[0]] + TakeUntil(s[1..], stops)
  }

  /** The host of a URI: the authority after the first `//`, up to `/`, `?` or `#`; None when there is none. */
  function Host(uri: string): (r: Option<string>)
    ensures r.Some? ==> r.value != "" && '/' !in r.value
  {
    var k := Find(uri, "//");
    if k == -1 then None
    else
      var h := TakeUntil(uri[k + 2..], {'/', '?', '#'});
      if h == "" then None else Some(h)
  }

  /** `get_conversation_folder`: `.files/` and the host of the first root; no root at all raises IndexError. */
  function ConversationFolder(roots: seq<McpSession.Root>): (r: Result<string, string>)
    ensures roots == [] ==> r.Err?
    ensures roots != [] ==> r.Ok? && StartsWith(r.value, ".files/")
  {
    if roots == [] then Err("list index out of range")
    else
      var h := Host(roots[0].uri);
      Ok(".files/" + (if h.Some? then h.value else "None"))
  }

  /**
   * With the legacy manager's single root `file://{id}`, the folder is
   * `.files/{id}`: the same folder the chat app creates for the session
   * under the working directory.
   */
  lemma SessionRootGivesSessionFolder(m: LegacyManager.ConnectionManager)
    requires m.id != "" && '/' !in m.id && '?' !in m.id && '#' !in m.id
    ensures ConversationFolder(m.ListRootsRequest()) == Ok(".files/" + m.id)
  {
    var uri := "file://" + m.id;
    assert m.ListRootsRequest()[0].uri == uri;
    assert OccursAt(uri, "//", 5) by {
      assert uri[5..7] == "//";
    }
    forall k: nat | k < 5 ensures !OccursAt(uri, "//", k) {
      assert uri[k..k + 2][0] == uri[k];
    }
    assert Find(uri, "//") == 5;
    assert uri[7..] == m.id;
    var h := TakeUntil(m.id, {'/', '?', '#'});
    assert |h| == |m.id|;
    assert h == m.id[..|m.id|] == m.id;
    assert Host(uri) == Some(m.id);
  }
}
