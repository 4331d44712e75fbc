/**
 * The preparation half of `VideoEditor.concatenate_videos`: where each clip is
 * downloaded to, the ffmpeg concat list that names them, the ffmpeg command line,
 * and how the outcome of the run is judged. Downloads and the ffmpeg process are
 * not modelled; their outcomes are parameters.
 */
module VideoConcat {
  import opened Wrappers
  import opened Text

  /** `f"clip_{i:02d}.mp4"`. */
  function ClipName(i: nat): (r: string)
    ensures |r| >= 11 && r[..5] == "clip_" && r[|r| - 4..] == ".mp4"
  {
    "clip_" + Pad2(i) + ".mp4"
  }

  /** Two clips never share a name, whatever their number. */
  lemma ClipNamesDistinct(i: nat, j: nat)
    requires i != j
    ensures ClipName(i) != ClipName(j)
  {
    if ClipName(i) == ClipName(j) {
      var a, b := ClipName(i), ClipName(j);
      assert a[5..|a| - 4] == Pad2(i);
      assert b[5..|b| - 4] == Pad2(j);
      Pad2Injective(i, j);
    }
  }

  /** `os.path.join(directory, name)` for a relative `name`. */
  function Join(directory: string, name: string): (r: string)
    ensures |name| <= |r| && r[|r| - |name|..] == name
  {
    if directory == [] || directory[|directory| - 1] == '/' then directory + name
    else directory + "/" + name
  }

  lemma JoinInjective(directory: string, a: string, b: string)
    requires Join(directory, a) == Join(directory, b)
    ensures a == b
  {
    var prefix := if directory == [] || directory[|directory| - 1] == '/' then directory else directory + "/";
    assert Join(directory, a) == prefix + a && Join(directory, b) == prefix + b;
    assert a == (prefix + a)[|prefix|..];
  }

  /** `video_file.replace("'", "'\\''")`: close the quote, an escaped quote, reopen. */
  function Escape(path: string): (r: string)
    ensures |r| >= |path|
    ensures '\n' !in path ==> '\n' !in r
  {
    if path == [] then []
    else (if path[0] == '\'' then "'\\''" else [path[0]]) + Escape(path[1..])
  }

  /** `f"file '{escaped_path}'\n"`. */
  function Line(path: string): (r: string)
    ensures |r| >= 8 && r[..6] == "file '" && r[|r| - 1] == '\n'
  {
    "file '" + Escape(path) + "'\n"
  }

  /**
   * The single-quote rules of ffmpeg's tokenizer ("Quoting and escaping" in the
   * ffmpeg-utils manual): a `'` toggles quoting, and outside quotes a backslash
   * makes the next character literal.
   */
  function Unquote(s: string, quoted: bool): string
    decreases |s|
  {
    if s == [] then []
    else if s[0] == '\'' then Unquote(s[1..], !quoted)
    else if !quoted && s[0] == '\\' && |s| >= 2 then [s[1]] + Unquote(s[2..], false)
    else [s[0]] + Unquote(s[1..], quoted)
  }

  /** Inside quotes, the four characters `'\''` read back as one quote. */
  lemma UnquoteEscapedQuote(tail: string)
    ensures Unquote("'\\''" + tail, true) == "'" + Unquote(tail, true)
  {
    var s0 := "'\\''" + tail;
    var s1 := "\\''" + tail;
    var s2 := "'" + tail;
    assert s0[1..] == s1 && s1[2..] == s2 && s2[1..] == tail;
    assert Unquote(s0, true) == Unquote(s1, false);
    assert Unquote(s1, false) == [s1[1]] + Unquote(s2, false);
    assert Unquote(s2, false) == Unquote(tail, true);
  }

  /** Inside quotes, any character other than a quote reads back as itself. */
  lemma UnquotePlain(c: char, tail: string)
    requires c != '\''
    ensures Unquote([c] + tail, true) == [c] + Unquote(tail, true)
  {
    assert ([c] + tail)[1..] == tail;
  }

  lemma {:induction false} UnquoteEscaped(path: string, rest: string)
    ensures Unquote(Escape(path) + rest, true) == path + Unquote(rest, true)
    decreases |path|
  {
    if path != [] {
      UnquoteEscaped(path[1..], rest);
      var tail := Escape(path[1..]) + rest;
      if path[0] == '\'' {
        assert Escape(path) + rest == "'\\''" + tail;
        UnquoteEscapedQuote(tail);
      } else {
        assert Escape(path) + rest == [path[0]] + tail;
        UnquotePlain(path[0], tail);
      }
      assert path + Unquote(rest, true) == [path[0]] + (path[1..] + Unquote(rest, true));
    } else {
      assert Escape(path) + rest == rest;
    }
  }

  /** What ffmpeg reads back from the quoted argument of a `file` line is the path that was written. */
  lemma QuotedPathRoundTrip(path: string)
    ensures Unquote("'" + Escape(path) + "'", false) == path
  {
    var s := "'" + Escape(path) + "'";
    assert s[1..] == Escape(path) + "'";
    UnquoteEscaped(path, "'");
    assert ("'")[1..] == [];
  }

  /** The list file for some clip paths, one line each, in order. */
  function FileList(paths: seq<string>): string {
    if paths == [] then [] else Line(paths[0]) + FileList(paths[1..])
  }

  lemma {:induction false} FileListAppend(paths: seq<string>, path: string)
    ensures FileList(paths + [path]) == FileList(paths) + Line(path)
    decreases |paths|
  {
    if paths == [] {
      assert [path][1..] == [];
    } else {
      assert (paths + [path])[1..] == paths[1..] + [path];
      FileListAppend(paths[1..], path);
    }
  }

  /** Index of the first newline in `s`, or `|s|` when there is none. */
  function FirstNewline(s: string): (k: nat)
    ensures k <= |s| && '\n' !in s[..k]
    ensures k < |s| ==> s[k] == '\n'
  {
    if s == [] then 0
    else if s[0] == '\n' then 0
    else
      var k := 1 + FirstNewline(s[1..]);
      assert s[..k] == [s[0]] + s[1..][..k - 1];
      k
  }

  /** The newline-terminated lines of a text, as ffmpeg's concat demuxer reads them. */
  function SplitLines(s: string): seq<string>
    decreases |s|
  {
    if s == [] then []
    else
      var k := FirstNewline(s);
      if k == |s| then [s] else [s[..k]] + SplitLines(s[k + 1..])
  }

  /** A `file '<quoted>'` directive read back as a path. */
  function ParseLine(line: string): Option<string> {
    if |line| >= 5 && line[..5] == "file " then Some(Unquote(line[5..], false)) else None
  }

  /** Every line of a list file, read back. */
  function ParseFileList(s: string): seq<Option<string>> {
    ParseLines(SplitLines(s))
  }

  function ParseLines(lines: seq<string>): (r: seq<Option<string>>)
    ensures |r| == |lines|
  {
    if lines == [] then [] else [ParseLine(lines[0])] + ParseLines(lines[1..])
  }

  function AllSome(paths: seq<string>): (r: seq<Option<string>>)
    ensures |r| == |paths| && forall i :: 0 <= i < |paths| ==> r[i] == Some(paths[i])
  {
    if paths == [] then [] else [Some(paths[0])] + AllSome(paths[1..])
  }

  predicate NoNewlines(paths: seq<string>) {
    forall i :: 0 <= i < |paths| ==> '\n' !in paths[i]
  }

  lemma SplitLinesCons(line: string, rest: string)
    requires '\n' !in line
    ensures SplitLines(line + "\n" + rest) == [line] + SplitLines(rest)
  {
    var s := line + "\n" + rest;
    var k := FirstNewline(s);
    assert s[|line|] == '\n';
    assert forall j | 0 <= j < |line| :: s[j] == line[j];
    assert k == |line|;
    assert s[..k] == line;
    assert s[k + 1..] == rest;
  }

  /** One line of the list file, without its newline, reads back as its path. */
  lemma LineReadsBack(p: string)
    requires '\n' !in p
    ensures Line(p) == LineBody(p) + "\n"
    ensures '\n' !in LineBody(p)
    ensures ParseLine(LineBody(p)) == Some(p)
  {
    var body := LineBody(p);
    assert '\n' !in Escape(p);
    assert body[5..] == "'" + Escape(p) + "'";
    QuotedPathRoundTrip(p);
  }

  function LineBody(p: string): string {
    "file '" + Escape(p) + "'"
  }

  /**
   * The list file holds one line per clip, in order, and each line names its clip:
   * ffmpeg reads back exactly the paths that were written.
   */
  lemma {:induction false} FileListRoundTrip(paths: seq<string>)
    requires NoNewlines(paths)
    ensures ParseFileList(FileList(paths)) == AllSome(paths)
    decreases |paths|
  {
    if paths != [] {
      var p, rest := paths[0], FileList(paths[1..]);
      LineReadsBack(p);
      assert FileList(paths) == LineBody(p) + "\n" + rest;
      SplitLinesCons(LineBody(p), rest);
      FileListRoundTrip(paths[1..]);
    }
  }

  /** Where clip `i` is downloaded to. */
  function ClipPath(tmpdir: string, i: nat): string {
    Join(tmpdir, ClipName(i))
  }

  /** The download targets of the first `n` clips, in order. */
  function ClipPathList(tmpdir: string, n: nat): (r: seq<string>)
    ensures |r| == n
  {
    if n == 0 then [] else ClipPathList(tmpdir, n - 1) + [ClipPath(tmpdir, n - 1)]
  }

  lemma {:induction false} ClipPathListAt(tmpdir: string, n: nat, i: nat)
    requires i < n
    ensures ClipPathList(tmpdir, n)[i] == ClipPath(tmpdir, i)
    decreases n
  {
    if i < n - 1 {
      ClipPathListAt(tmpdir, n - 1, i);
    }
  }

  /** `concatenate_videos`' first loop: a download target per URL, numbered in order. */
  method ClipPaths(tmpdir: string, videoUrls: seq<string>) returns (videoFiles: seq<string>)
    ensures |videoFiles| == |videoUrls|
    ensures forall i :: 0 <= i < |videoFiles| ==> videoFiles[i] == ClipPath(tmpdir, i)
  {
    videoFiles := [];
    for i := 0 to |videoUrls|
      invariant videoFiles == ClipPathList(tmpdir, i)
    {
      videoFiles := videoFiles + [ClipPath(tmpdir, i)];
    }
    forall i | 0 <= i < |videoFiles|
      ensures videoFiles[i] == ClipPath(tmpdir, i)
    {
      ClipPathListAt(tmpdir, |videoUrls|, i);
    }
  }

  /** `concatenate_videos`' second loop: the list file, written one line per clip. */
  method WriteFileList(videoFiles: seq<string>) returns (listContent: string)
    ensures listContent == FileList(videoFiles)
  {
    listContent := "";
    for i := 0 to |videoFiles|
      invariant listContent == FileList(videoFiles[..i])
    {
      FileListAppend(videoFiles[..i], videoFiles[i]);
      assert videoFiles[..i + 1] == videoFiles[..i] + [videoFiles[i]];
      listContent := listContent + Line(videoFiles[i]);
    }
    assert videoFiles[..|videoFiles|] == videoFiles;
  }

  /** `concatenate_videos` up to the ffmpeg call: the download targets, the list file and its contents. */
  method PrepareConcat(tmpdir: string, videoUrls: seq<string>)
    returns (videoFiles: seq<string>, listFile: string, listContent: string)
    ensures |videoFiles| == |videoUrls|
    ensures forall i :: 0 <= i < |videoFiles| ==> videoFiles[i] == ClipPath(tmpdir, i)
    ensures listFile == Join(tmpdir, "filelist.txt")
    ensures listContent == FileList(videoFiles)
  {
    videoFiles := ClipPaths(tmpdir, videoUrls);
    listFile := Join(tmpdir, "filelist.txt");
    listContent := WriteFileList(videoFiles);
  }

  /** Distinct URLs get distinct download targets, so no clip overwrites another. */
  lemma ClipPathsDistinct(tmpdir: string, i: nat, j: nat)
    requires i != j
    ensures ClipPath(tmpdir, i) != ClipPath(tmpdir, j)
  {
    ClipNamesDistinct(i, j);
    if ClipPath(tmpdir, i) == ClipPath(tmpdir, j) {
      JoinInjective(tmpdir, ClipName(i), ClipName(j));
    }
  }

  /** `ffmpeg -f concat -safe 0 -i <list> -c copy -y <output>`. */
  function FfmpegCommand(listFile: string, outputPath: string): (r: seq<string>)
    ensures |r| == 11 && r[0] == "ffmpeg" && r[6] == listFile && r[10] == outputPath
  {
    ["ffmpeg", "-f", "concat", "-safe", "0", "-i", listFile, "-c", "copy", "-y", outputPath]
  }

  /** How the ffmpeg run ended: its exit, or the five-minute timeout. */
  datatype FfmpegRun =
    | Completed
    | Failed(stderr: string, description: string)
    | TimedOut

  /**
   * What `concatenate_videos` returns after ffmpeg: the output bytes when the run
   * completed and produced a non-empty file, otherwise the error it raises.
   * `output` is the output file, `None` when it does not exist.
   */
  function ConcatOutcome(run: FfmpegRun, outputPath: string, output: Option<seq<bv8>>): (r: Result<seq<bv8>, string>)
    ensures r.Ok? <==> run.Completed? && output.Some? && |output.value| > 0
    ensures r.Ok? ==> r.value == output.value
    ensures run.TimedOut? ==> r == Err("Video concatenation timed out")
    ensures run.Failed? ==> r == Err("Video concatenation failed: " + (if run.stderr != "" then run.stderr else run.description))
  {
    match run
    case TimedOut => Err("Video concatenation timed out")
    case Failed(stderr, description) =>
      Err("Video concatenation failed: " + (if stderr != "" then stderr else description))
    case Completed =>
      if output.None? then Err("Output file was not created: " + outputPath)
      else if |output.value| == 0 then Err("Output file is empty (0 bytes)")
      else Ok(output.value)
  }
}
