/**
 * File monitor (monitors/file_monitor.py): which extension a media message
 * is taken to have, how configured and observed extensions are normalised
 * before comparison, and when the save action runs.
 */
module FileMonitor {
  import opened Wrappers
  import opened PyStr
  import opened Config
  import opened Message

  /**
   * The extension part of POSIX `os.path.splitext`: from the last dot of the
   * final path component, provided a character other than '.' precedes that
   * dot in the component; "" otherwise.
   */
  function SplitExt(p: string): (r: string)
    ensures r != "" ==> r[0] == '.' && '.' !in r[1..] && '/' !in r && EndsWith(p, r)
  {
    var base := LastSegment(p, '/');
    if '.' !in base then ""
    else
      var ext := "." + LastSegment(base, '.');
      SplitExtFacts(p);
      if HasNonDot(base[..|base| - |ext|]) then ext else ""
  }

  predicate HasNonDot(s: string)
  {
    exists i :: 0 <= i < |s| && s[i] != '.'
  }

  lemma SplitExtFacts(p: string)
    requires '.' in LastSegment(p, '/')
    ensures var base := LastSegment(p, '/');
      var ext := "." + LastSegment(base, '.');
      |ext| <= |base| && ext[0] == '.' && '.' !in ext[1..] && '/' !in ext && EndsWith(p, ext)
  {
    var base := LastSegment(p, '/');
    var ext := "." + LastSegment(base, '.');
    assert ext[1..] == LastSegment(base, '.');
    LastSegmentWithSeparator(base, '.');
    assert EndsWith(p, base);
    EndsWithTrans(ext, base, p);
    AbsentFromSuffix(base, ext, '/');
  }

  /** A character missing from a string is missing from each of its suffixes. */
  lemma AbsentFromSuffix(s: string, suffix: string, c: char)
    requires EndsWith(s, suffix) && c !in s
    ensures c !in suffix
  {
    forall j | 0 <= j < |suffix| ensures suffix[j] != c {
      assert suffix[j] == s[|s| - |suffix| + j];
    }
  }

  /**
   * On a bare file name with a real stem, `splitext` and the extension the
   * message parser derives agree up to case.
   */
  lemma SplitExtAgreesWithMessageExtension(name: string)
    requires '/' !in name && SplitExt(name) != ""
    ensures ExtensionOfFileName(name) == Some(Lower(SplitExt(name)))
  {
    SplitExtOfBareName(name);
    LowerDotPrefix(LastSegment(name, '.'));
  }

  lemma SplitExtOfBareName(name: string)
    requires '/' !in name && SplitExt(name) != ""
    ensures '.' in name && SplitExt(name) == "." + LastSegment(name, '.')
  {
    assert LastSegment(name, '/') == name;
  }

  /** A dot-file such as ".bashrc" has no extension for `splitext`. */
  lemma DotFileHasNoExtension(name: string)
    requires '/' !in name && name != [] && name[0] == '.' && '.' !in name[1..]
    ensures SplitExt(name) == ""
  {
    assert LastSegment(name, '/') == name;
    assert name == ['.'] + name[1..];
    LastSegmentAfterSeparator([], '.', name[1..]);
    var ext := "." + LastSegment(name, '.');
    assert |ext| == |name|;
  }

  /** Lowercase, then add a leading '.' if missing. */
  function NormalizeExt(e: string): (r: string)
    ensures |r| >= 1 && r[0] == '.'
    ensures Lower(r) == r
  {
    LowerIdempotent(e);
    var l := Lower(e);
    if StartsWith(l, ".") then l
    else
      LowerDotPrefix(l);
      "." + l
  }

  /** Normalising twice changes nothing. */
  lemma NormalizeIdempotent(e: string)
    ensures NormalizeExt(NormalizeExt(e)) == NormalizeExt(e)
  {
    assert StartsWith(NormalizeExt(e), ".");
  }

  /** "pdf", ".pdf" and ".PDF" all normalise alike: case and the leading dot do not matter. */
  lemma NormalizeIgnoresCaseAndDot(e: string)
    requires e == [] || e[0] != '.'
    ensures NormalizeExt("." + e) == NormalizeExt(e)
    ensures NormalizeExt(Lower(e)) == NormalizeExt(e)
  {
    LowerIdempotent(e);
    LowerDotPrefix(e);
    assert StartsWith(Lower("." + e), ".");
    assert !StartsWith(Lower(e), ".");
  }

  /** The MIME types the monitor recognises when neither extension nor name is known. */
  const MimeToExt: map<string, string> := map[
    "application/pdf" := ".pdf",
    "application/zip" := ".zip",
    "application/x-rar-compressed" := ".rar",
    "application/x-7z-compressed" := ".7z",
    "text/plain" := ".txt",
    "application/msword" := ".doc",
    "application/vnd.openxmlformats-officedocument.wordprocessingml.document" := ".docx",
    "application/vnd.ms-excel" := ".xls",
    "application/vnd.openxmlformats-officedocument.spreadsheetml.sheet" := ".xlsx",
    "image/jpeg" := ".jpg",
    "image/png" := ".png",
    "video/mp4" := ".mp4",
    "audio/mpeg" := ".mp3",
    "audio/ogg" := ".ogg",
    "video/webm" := ".webm"]

  /**
   * The extension the monitor attributes to the media: the parsed
   * extension, else the `splitext` suffix of the file name, else the MIME
   * table. None means the monitor gives up (no match).
   */
  function DerivedExtension(m: MessageMedia): (r: Option<string>)
    ensures r.Some? ==> r.value != ""
    ensures Truthy(m.fileExtension) ==> r == m.fileExtension
    ensures !Truthy(m.fileExtension) && Truthy(m.fileName) ==>
      r == (if SplitExt(m.fileName.value) == "" then None else Some(Lower(SplitExt(m.fileName.value))))
    ensures !Truthy(m.fileExtension) && !Truthy(m.fileName) ==>
      (r.Some? <==> Truthy(m.mediaType) && Truthy(m.mimeType) && m.mimeType.value in MimeToExt)
  {
    if Truthy(m.fileExtension) then m.fileExtension
    else if Truthy(m.fileName) then
      var e := SplitExt(m.fileName.value);
      if e == "" then None else Some(Lower(e))
    else if Truthy(m.mediaType) then
      if Truthy(m.mimeType) && m.mimeType.value in MimeToExt then
        MimeTableNonEmpty(m.mimeType.value);
        Some(MimeToExt[m.mimeType.value])
      else None
    else None
  }

  lemma MimeTableNonEmpty(mime: string)
    requires mime in MimeToExt
    ensures MimeToExt[mime] != ""
  {
  }

  /**
   * `_match_condition`: media with a derivable extension whose normal form
   * equals the configured one. Logging the size of a matched file divides a
   * missing `file_size`, which raises (Err).
   */
  function MatchCondition(c: FileConfig, msg: TelegramMessage): (r: Result<bool, string>)
    ensures msg.media.None? || !msg.media.value.hasMedia ==> r == Ok(false)
    ensures r == Ok(true) || r.Err? <==>
      msg.media.Some? && msg.media.value.hasMedia && DerivedExtension(msg.media.value).Some?
      && NormalizeExt(DerivedExtension(msg.media.value).value) == NormalizeExt(c.fileExtension)
    ensures r.Err? ==> msg.media.Some? && msg.media.value.fileSize.None?
  {
    if msg.media.None? || !msg.media.value.hasMedia then Ok(false)
    else
      var m := msg.media.value;
      match DerivedExtension(m)
      case None => Ok(false)
      case Some(e) =>
        if NormalizeExt(e) != NormalizeExt(c.fileExtension) then Ok(false)
        else if FileSizeMb(m).None? && m.fileSize.None? then Err("TypeError")
        else Ok(true)
  }

  /** The size bounds play no part in matching. */
  lemma SizeBoundsDoNotAffectMatching(c: FileConfig, msg: TelegramMessage, lo: Option<real>, hi: Option<real>)
    ensures MatchCondition(c.(minSize := lo, maxSize := hi), msg) == MatchCondition(c, msg)
  {
  }

  /** Configured as "pdf", ".pdf" or ".PDF", a monitor matches the same messages. */
  lemma ConfigExtensionSpellingIrrelevant(c: FileConfig, msg: TelegramMessage, e: string)
    requires e == [] || e[0] != '.'
    ensures MatchCondition(c.(fileExtension := "." + e), msg) == MatchCondition(c.(fileExtension := e), msg)
    ensures MatchCondition(c.(fileExtension := Lower(e)), msg) == MatchCondition(c.(fileExtension := e), msg)
  {
    NormalizeIgnoresCaseAndDot(e);
  }

  /** The size `_save_file` checks: `file_size_mb`, else a positive `file_size` in MiB, else 0; a missing size raises. */
  function SaveSizeMb(m: MessageMedia): (r: Result<real, string>)
    ensures r.Err? <==> m.fileSize.None?
    ensures FileSizeMb(m).Some? ==> r == Ok(FileSizeMb(m).value)
  {
    match FileSizeMb(m)
    case Some(x) => Ok(x)
    case None =>
      // a present size is 0 here, so the fallback size is 0
      if m.fileSize.None? then Err("TypeError") else Ok(0.0)
  }

  /**
   * `_save_file`: only media whose size lies within the configured bounds
   * is downloaded; `downloaded` is whether the download produced a path.
   */
  predicate SaveFile(c: FileConfig, msg: TelegramMessage, downloaded: bool)
    ensures SaveFile(c, msg, downloaded) ==>
      downloaded && msg.media.Some? && msg.media.value.hasMedia && SaveSizeMb(msg.media.value).Ok?
    ensures SaveFile(c, msg, downloaded) && c.maxSize.Some? ==> SaveSizeMb(msg.media.value).value <= c.maxSize.value
    ensures SaveFile(c, msg, downloaded) && c.minSize.Some? ==> c.minSize.value <= SaveSizeMb(msg.media.value).value
  {
    msg.media.Some? && msg.media.value.hasMedia && SaveSizeMb(msg.media.value).Ok?
    && IsSizeValid(c, SaveSizeMb(msg.media.value).value) && downloaded
  }

  /** `_execute_custom_actions`: the save action is attempted with a save folder and reported only when it succeeded. */
  function CustomActions(c: FileConfig, msg: TelegramMessage, downloaded: bool): (r: seq<string>)
    ensures |r| <= 1
    ensures r != [] <==> Truthy(c.saveFolder) && SaveFile(c, msg, downloaded)
  {
    if Truthy(c.saveFolder) && SaveFile(c, msg, downloaded) then ["保存文件到本地"] else []
  }

  /** A file larger than the configured maximum is never reported as saved. */
  lemma OversizedFileNotSaved(c: FileConfig, msg: TelegramMessage, downloaded: bool)
    requires msg.media.Some? && FileSizeMb(msg.media.value).Some?
    requires c.maxSize.Some? && FileSizeMb(msg.media.value).value > c.maxSize.value
    ensures CustomActions(c, msg, downloaded) == []
  {
  }
}
