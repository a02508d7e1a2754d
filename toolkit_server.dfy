// The local FastMCP server, music_toolkit_server.py: the conversion step
// behind both tools, the two tools themselves, which validate their input,
// call the services and accumulate their reply text, and the listing of the
// output directory. Library availability, the file system and the services
// are inputs.
module ToolkitServer {
  import opened Wrappers
  import opened Text
  import opened Services

  /** Which of the two optional libraries imported at start-up. */
  datatype Libraries = Libraries(music21: bool, basicPitch: bool)

  /**
   * What the steps of one conversion did: creating `output`, the clean-up and
   * pitch detection of basic_pitch, whether a MIDI file then exists, and
   * writing the MusicXML file.
   */
  datatype Converter = Converter(mkdir: Outcome, detect: Outcome, midiFound: bool, write: Outcome)

  /** The outcomes of every external step one tool call may take. */
  datatype ServerEnv = ServerEnv(fileExists: string -> bool, libs: Libraries, conv: Converter, backends: Backends)

  const Music21Missing: Exc := ImportError("music21 library is required for MusicXML generation")
  const NoMidi: Exc := OtherError(Cross + " Failed to generate MIDI file")

  /**
   * wav_to_musicxml: the path of the written score, or the exception raised.
   * Without music21 nothing is attempted; without basic_pitch a placeholder
   * score is written instead of a transcription, so no MIDI file is needed.
   */
  function WavToMusicXml(libs: Libraries, now: string, conv: Converter): Result<string, Exc> {
    if !libs.music21 then Err(Music21Missing)
    else if conv.mkdir.Raised? then Err(conv.mkdir.error)
    else if libs.basicPitch && conv.detect.Raised? then Err(conv.detect.error)
    else if libs.basicPitch && !conv.midiFound then Err(NoMidi)
    else if conv.write.Raised? then Err(conv.write.error)
    else Ok(ScorePath(Local, now))
  }

  /**
   * The conversion succeeds exactly when music21 is there and every step it
   * takes completes, and then its result is the score path; without
   * basic_pitch no MIDI file is needed.
   */
  lemma WavToMusicXmlOutcomes(libs: Libraries, now: string, conv: Converter)
    ensures !libs.music21 ==> WavToMusicXml(libs, now, conv) == Err(Music21Missing)
    ensures WavToMusicXml(libs, now, conv).Ok? <==>
              libs.music21 && conv.mkdir.Done? && conv.write.Done?
              && (libs.basicPitch ==> conv.detect.Done? && conv.midiFound)
    ensures WavToMusicXml(libs, now, conv).Ok? ==> WavToMusicXml(libs, now, conv).value == ScorePath(Local, now)
    ensures libs.music21 && conv.mkdir.Done? && libs.basicPitch && conv.detect.Done? && !conv.midiFound ==>
              WavToMusicXml(libs, now, conv) == Err(NoMidi)
  {
  }

  const ScoreFailed: string := Cross + " Score generation failed: "

  /** generate_score_from_audio: never raises; a failure becomes a ❌ text. */
  function GenerateScoreFromAudio(libs: Libraries, now: string, conv: Converter): (s: string)
    ensures StartsWith(s, Cross) <==> WavToMusicXml(libs, now, conv).Err?
    ensures WavToMusicXml(libs, now, conv).Ok? ==> s == ScorePath(Local, now)
    ensures WavToMusicXml(libs, now, conv).Err? ==> s == ScoreFailed + WavToMusicXml(libs, now, conv).error.msg
  {
    match WavToMusicXml(libs, now, conv)
    case Ok(path) => path
    case Err(e) => CrossIsFailure(" Score generation failed: " + e.msg); ScoreFailed + e.msg
  }

  // ---------------------------------------------------------------------------
  // wav_to_music_score

  const WavNotFound: string := Cross + " WAV file not found: "
  const MissingLibraries: string := Cross + " Missing required libraries: "
  const InstallHint: string := "\nPlease install: pip install basic-pitch music21"
  const WavConversionError: string := Cross + " Error converting WAV to music score: "
  const WavSuccessHead: string := CheckMark + " Successfully generated MusicXML score from WAV file\n" + Folder + " MusicXML file: "
  const RenderFailedLine: string := "\n" + Warning + " SVG rendering failed: "
  const RenderedLine: string := "\n" + ScoreSign + " Score rendered successfully as SVG\n"

  /** The success line names the written score. */
  function WavSuccessLine(scorePath: string): (line: string)
    ensures StartsWith(line, CheckMark) && !IsFailureText(line)
    ensures |line| == |WavSuccessHead| + |scorePath| && line[|WavSuccessHead|..] == scorePath
  {
    var rest := " Successfully generated MusicXML score from WAV file\n" + Folder + " MusicXML file: " + scorePath;
    CheckMarkIsSuccess(rest);
    assert CheckMark + rest == WavSuccessHead + scorePath;
    WavSuccessHead + scorePath
  }

  /** What a rendering adds to the reply: a ⚠️ line around a failure, the 🎼 line and the HTML otherwise. */
  function RenderLine(html: string): (s: string)
    ensures |html| <= |s| && s[|s| - |html|..] == html
    ensures IsFailureText(html) ==> StartsWith(s, RenderFailedLine) && |s| == |RenderFailedLine| + |html|
    ensures !IsFailureText(html) ==> StartsWith(s, RenderedLine) && |s| == |RenderedLine| + |html|
  {
    var line := if IsFailureText(html) then RenderFailedLine else RenderedLine;
    StartsWithConcat(line, html);
    line + html
  }

  /**
   * The reply and the steps of wav_to_music_score: existence is checked
   * first, then the conversion runs, then the rendering when asked for.
   */
  function WavToolRun(path: string, renderSvg: bool, env: ServerEnv): Run {
    if !env.fileExists(path) then Run(WavNotFound + path, [])
    else
      match WavToMusicXml(env.libs, env.backends.now, env.conv)
      case Err(ImportError(m)) => Run(MissingLibraries + m + InstallHint, [])
      case Err(OtherError(m)) => Run(WavConversionError + m, [])
      case Ok(p) =>
        if renderSvg then
          var render := Render(env.backends.renderReply, env.backends.b64);
          Run(WavSuccessLine(p) + RenderLine(render.text), [WriteScore(p)] + render.trace)
        else Run(WavSuccessLine(p), [WriteScore(p)])
  }

  /** A missing file stops everything; a conversion failure is reported by kind and nothing is written. */
  lemma WavToolRunCases(path: string, renderSvg: bool, env: ServerEnv)
    ensures !env.fileExists(path) ==> WavToolRun(path, renderSvg, env) == Run(WavNotFound + path, [])
    ensures var r := WavToolRun(path, renderSvg, env);
            var c := WavToMusicXml(env.libs, env.backends.now, env.conv);
            env.fileExists(path) && c.Err? ==>
              && r.trace == []
              && (c.error.ImportError? ==> r.text == MissingLibraries + c.error.msg + InstallHint)
              && (c.error.OtherError? ==> r.text == WavConversionError + c.error.msg)
  {
  }

  /**
   * After a conversion that wrote its score, the reply is the success line
   * naming it, followed by the rendering when asked for: a rendering failure
   * is appended after the success line, never instead of it.
   */
  lemma WavToolConverted(path: string, renderSvg: bool, env: ServerEnv)
    requires env.fileExists(path) && WavToMusicXml(env.libs, env.backends.now, env.conv).Ok?
    ensures var r := WavToolRun(path, renderSvg, env);
            var p := ScorePath(Local, env.backends.now);
            var html := Render(env.backends.renderReply, env.backends.b64).text;
            && r.text == WavSuccessLine(p) + (if renderSvg then RenderLine(html) else "")
            && r.trace == [WriteScore(p)] + (if renderSvg then [PostVerovio] else [])
  {
    var p := WavToMusicXml(env.libs, env.backends.now, env.conv).value;
    assert p == ScorePath(Local, env.backends.now);
    var render := Render(env.backends.renderReply, env.backends.b64);
    if renderSvg {
      assert WavToolRun(path, renderSvg, env) == Run(WavSuccessLine(p) + RenderLine(render.text), [WriteScore(p)] + render.trace);
    } else {
      assert WavToolRun(path, renderSvg, env) == Run(WavSuccessLine(p), [WriteScore(p)]);
      assert WavSuccessLine(p) + "" == WavSuccessLine(p);
    }
  }

  /** The reply starts with ❌ exactly when the file is missing or the conversion failed. */
  lemma WavToolFailureMarker(path: string, renderSvg: bool, env: ServerEnv)
    ensures StartsWith(WavToolRun(path, renderSvg, env).text, Cross) <==>
              !(env.fileExists(path) && WavToMusicXml(env.libs, env.backends.now, env.conv).Ok?)
  {
    var r := WavToolRun(path, renderSvg, env);
    if !env.fileExists(path) {
      CrossIsFailure(" WAV file not found: " + path);
    } else {
      match WavToMusicXml(env.libs, env.backends.now, env.conv)
      case Err(ImportError(m)) =>
        CrossIsFailure(" Missing required libraries: " + m);
        StartsWithExtend(MissingLibraries + m, Cross, InstallHint);
      case Err(OtherError(m)) =>
        CrossIsFailure(" Error converting WAV to music score: " + m);
      case Ok(p) =>
        var line := WavSuccessLine(p);
        var suffix := if renderSvg then RenderLine(Render(env.backends.renderReply, env.backends.b64).text) else "";
        assert r.text == line + suffix;
        assert r.text[0] == line[0] == CheckMark[0];
        FirstCharDiffers(r.text, Cross);
    }
  }

  /** wav_to_music_score, accumulating the reply with `+=` as the source does. */
  method WavToMusicScore(path: string, renderSvg: bool, env: ServerEnv) returns (result: string, trace: seq<Effect>)
    ensures Run(result, trace) == WavToolRun(path, renderSvg, env)
  {
    trace := [];
    if !env.fileExists(path) {
      return WavNotFound + path, trace;
    }
    var converted := WavToMusicXml(env.libs, env.backends.now, env.conv);
    if converted.Err? {
      if converted.error.ImportError? {
        return MissingLibraries + converted.error.msg + InstallHint, trace;
      }
      return WavConversionError + converted.error.msg, trace;
    }
    var musicxmlPath := converted.value;
    trace := trace + [WriteScore(musicxmlPath)];
    result := WavSuccessLine(musicxmlPath);
    if renderSvg {
      var render := Render(env.backends.renderReply, env.backends.b64);
      trace := trace + render.trace;
      result := result + RenderLine(render.text);
    }
  }

  // ---------------------------------------------------------------------------
  // generate_music_from_humming

  const HummingNotFound: string := Cross + " Humming file not found: "
  const HummingError: string := Cross + " Error generating music from humming: "
  const HummingHead: string := CheckMark + " Successfully generated music from humming\n" + Folder + " Generated music file: "
  const StyleLabel: string := "\n" + MusicNote + " Style: "
  const ScoreFailedLine: string := "\n" + Warning + " Score generation failed: "
  const ScoreNamedLine: string := "\n" + ScoreSign + " Music score generated: "
  const ScoreShownLine: string := "\n" + ScoreSign + " Score rendered as SVG:\n"

  function HummingSuccessLine(audioPath: string, style: string): (line: string)
    ensures StartsWith(line, CheckMark) && !IsFailureText(line)
  {
    var rest := " Successfully generated music from humming\n" + Folder + " Generated music file: " + audioPath
                + StyleLabel + style;
    CheckMarkIsSuccess(rest);
    assert HummingHead + audioPath + (StyleLabel + style) == CheckMark + rest;
    HummingHead + audioPath + (StyleLabel + style)
  }

  /** The success line names the generated audio and ends with the requested style. */
  lemma HummingSuccessLineNames(audioPath: string, style: string)
    ensures var line := HummingSuccessLine(audioPath, style);
            && |HummingHead| + |audioPath| <= |line|
            && line[|HummingHead|..|HummingHead| + |audioPath|] == audioPath
            && |style| <= |line| && line[|line| - |style|..] == style
  {
    var line := HummingSuccessLine(audioPath, style);
    assert line[|HummingHead|..|HummingHead| + |audioPath|] == audioPath;
  }

  /**
   * The score lines of the humming tool: a failed score gives a ⚠️ line and no
   * rendering is shown; a written score is named, and its rendering is shown
   * only when it did not fail.
   */
  function ScoreLines(score: string, html: string): (s: string)
    ensures StartsWith(score, Cross) ==> s == ScoreFailedLine + score
    ensures !StartsWith(score, Cross) ==>
              StartsWith(s, ScoreNamedLine + score)
              && (IsFailureText(html) ==> s == ScoreNamedLine + score)
              && (!IsFailureText(html) ==> s == ScoreNamedLine + score + (ScoreShownLine + html))
  {
    if StartsWith(score, Cross) then ScoreFailedLine + score
    else
      var shown := if IsFailureText(html) then "" else ScoreShownLine + html;
      StartsWithConcat(ScoreNamedLine + score, shown);
      assert ScoreNamedLine + score + "" == ScoreNamedLine + score;
      ScoreNamedLine + score + shown
  }

  /** What the humming tool adds after generation succeeded. */
  function HummingSuccessRun(audio: Run, style: string, generateScore: bool, env: ServerEnv): Run {
    var line := HummingSuccessLine(audio.text, style);
    if !generateScore then Run(line, audio.trace)
    else
      var score := GenerateScoreFromAudio(env.libs, env.backends.now, env.conv);
      var html := Render(env.backends.renderReply, env.backends.b64).text;
      Run(line + ScoreLines(score, html),
          if StartsWith(score, Cross) then audio.trace else audio.trace + [WriteScore(score), PostVerovio])
  }

  /**
   * The reply and the steps of generate_music_from_humming: existence is
   * checked first, then generation runs, then the score steps when asked for.
   */
  function HummingToolRun(path: string, style: string, generateScore: bool, env: ServerEnv): Run {
    var b := env.backends;
    if !env.fileExists(path) then Run(HummingNotFound + path, [])
    else
      match GenerateFromHum(Local, b.now, b.genDir, b.genReply, b.genWrite)
      case Err(e) => Run(HummingError + e.msg, [])
      case Ok(g) => if StartsWith(g.text, Cross) then g else HummingSuccessRun(g, style, generateScore, env)
  }

  /**
   * A missing file stops everything; a ❌ from generation is the reply itself
   * and nothing further runs; otherwise the reply names the audio and the
   * style, and the score steps follow only when asked for.
   */
  lemma HummingToolRunCases(path: string, style: string, generateScore: bool, env: ServerEnv)
    ensures !env.fileExists(path) ==> HummingToolRun(path, style, generateScore, env) == Run(HummingNotFound + path, [])
    ensures env.fileExists(path) && env.backends.genDir.Raised? ==>
              HummingToolRun(path, style, generateScore, env) == Run(HummingError + env.backends.genDir.error.msg, [])
    ensures var b := env.backends;
            var g := GenerateFromHum(Local, b.now, b.genDir, b.genReply, b.genWrite);
            env.fileExists(path) && g.Ok? && StartsWith(g.value.text, Cross) ==>
              HummingToolRun(path, style, generateScore, env) == g.value
    ensures var b := env.backends;
            var g := GenerateFromHum(Local, b.now, b.genDir, b.genReply, b.genWrite);
            var r := HummingToolRun(path, style, generateScore, env);
            env.fileExists(path) && g.Ok? && !StartsWith(g.value.text, Cross) ==>
              var line := HummingSuccessLine(g.value.text, style);
              var score := GenerateScoreFromAudio(env.libs, b.now, env.conv);
              && StartsWith(r.text, line)
              && (!generateScore ==> r == Run(line, g.value.trace))
              && (generateScore ==> r.text == line + ScoreLines(score, Render(b.renderReply, b.b64).text))
              && (generateScore && StartsWith(score, Cross) ==> r.trace == g.value.trace)
              && (generateScore && !StartsWith(score, Cross) ==>
                    r.trace == g.value.trace + [WriteScore(score), PostVerovio])
  {
    var b := env.backends;
    GenerateFromHumOutcomes(Local, b.now, b.genDir, b.genReply, b.genWrite);
    var g := GenerateFromHum(Local, b.now, b.genDir, b.genReply, b.genWrite);
    if env.fileExists(path) && g.Ok? && !StartsWith(g.value.text, Cross) {
      var line := HummingSuccessLine(g.value.text, style);
      var score := GenerateScoreFromAudio(env.libs, b.now, env.conv);
      StartsWithConcat(line, ScoreLines(score, Render(b.renderReply, b.b64).text));
      assert StartsWith(line, line) by { StartsWithConcat(line, ""); assert line + "" == line; }
    }
  }

  /** The reply starts with ❌ exactly when the file is missing or generation did not complete. */
  lemma HummingToolFailureMarker(path: string, style: string, generateScore: bool, env: ServerEnv)
    ensures StartsWith(HummingToolRun(path, style, generateScore, env).text, Cross) <==>
              !(env.fileExists(path) && env.backends.genDir.Done? && env.backends.genReply.Replied?
                && env.backends.genReply.status == 200 && env.backends.genWrite.Done?)
  {
    var b := env.backends;
    var r := HummingToolRun(path, style, generateScore, env);
    GenerateFromHumOutcomes(Local, b.now, b.genDir, b.genReply, b.genWrite);
    if !env.fileExists(path) {
      CrossIsFailure(" Humming file not found: " + path);
    } else {
      match GenerateFromHum(Local, b.now, b.genDir, b.genReply, b.genWrite)
      case Err(e) =>
        CrossIsFailure(" Error generating music from humming: " + e.msg);
      case Ok(g) =>
        if !StartsWith(g.text, Cross) {
          var line := HummingSuccessLine(g.text, style);
          assert r.text == line + (if generateScore then ScoreLines(
            GenerateScoreFromAudio(env.libs, b.now, env.conv), Render(b.renderReply, b.b64).text) else "");
          assert r.text[0] == line[0] == CheckMark[0];
          FirstCharDiffers(r.text, Cross);
        }
    }
  }

  /** generate_music_from_humming, accumulating the reply with `+=` as the source does. */
  method GenerateMusicFromHumming(path: string, style: string, generateScore: bool, env: ServerEnv)
    returns (result: string, trace: seq<Effect>)
    ensures Run(result, trace) == HummingToolRun(path, style, generateScore, env)
  {
    var b := env.backends;
    if !env.fileExists(path) {
      return HummingNotFound + path, [];
    }
    var generated := GenerateFromHum(Local, b.now, b.genDir, b.genReply, b.genWrite);
    if generated.Err? {
      return HummingError + generated.error.msg, [];
    }
    var generatedPath := generated.value.text;
    trace := generated.value.trace;
    if StartsWith(generatedPath, Cross) {
      return generatedPath, trace;
    }
    result := HummingSuccessLine(generatedPath, style);
    if generateScore {
      ghost var line := result;
      var scorePath := GenerateScoreFromAudio(env.libs, b.now, env.conv);
      if StartsWith(scorePath, Cross) {
        result := result + (ScoreFailedLine + scorePath);
      } else {
        trace := trace + [WriteScore(scorePath)];
        result := result + (ScoreNamedLine + scorePath);
        var svgHtml := Render(b.renderReply, b.b64).text;
        trace := trace + [PostVerovio];
        if !IsFailureText(svgHtml) {
          result := result + (ScoreShownLine + svgHtml);
        }
      }
      assert result == line + ScoreLines(scorePath, Render(b.renderReply, b.b64).text);
    }
  }

  // ---------------------------------------------------------------------------
  // get_generated_files

  /** One entry of the output directory: its name, whether it is a regular file, and its size and mtime. */
  datatype Entry = Entry(name: string, isFile: bool, size: nat, modified: string)

  /** What looking into `output` gave. */
  datatype OutputListing = NoDirectory | Listed(entries: seq<Entry>) | ListingRaised(error: string)

  /** Python's `<=` on strings: code point by code point, a prefix first. */
  predicate NameLe(a: string, b: string)
    decreases |a|
  {
    |a| == 0 || (|b| > 0 && (a[0] < b[0] || (a[0] == b[0] && NameLe(a[1..], b[1..]))))
  }

  lemma {:induction false} NameLeTotal(a: string, b: string)
    ensures NameLe(a, b) || NameLe(b, a)
    decreases |a|
  {
    if |a| > 0 && |b| > 0 && a[0] == b[0] {
      NameLeTotal(a[1..], b[1..]);
    }
  }

  lemma {:induction false} NameLeTransitive(a: string, b: string, c: string)
    requires NameLe(a, b) && NameLe(b, c)
    ensures NameLe(a, c)
    decreases |a|
  {
    if |a| > 0 && a[0] == b[0] && b[0] == c[0] {
      NameLeTransitive(a[1..], b[1..], c[1..]);
    }
  }

  lemma {:induction false} NameLeReflexive(a: string)
    ensures NameLe(a, a)
    decreases |a|
  {
    if |a| > 0 {
      NameLeReflexive(a[1..]);
    }
  }

  /** Each entry is named no later than the next one. */
  predicate SortedByName(es: seq<Entry>) {
    forall i :: 0 < i < |es| ==> NameLe(es[i - 1].name, es[i].name)
  }

  /** In a sorted listing every entry is named no later than every entry after it. */
  lemma {:induction false} SortedByNameOrdersAll(es: seq<Entry>, i: int, j: int)
    requires SortedByName(es) && 0 <= i <= j < |es|
    ensures NameLe(es[i].name, es[j].name)
    decreases j - i
  {
    if i == j {
      NameLeReflexive(es[i].name);
    } else {
      SortedByNameOrdersAll(es, i, j - 1);
      NameLeTransitive(es[i].name, es[j - 1].name, es[j].name);
    }
  }

  /** Inserting into a sorted listing keeps it sorted and adds exactly the one entry. */
  function InsertByName(e: Entry, es: seq<Entry>): (r: seq<Entry>)
    requires SortedByName(es)
    ensures SortedByName(r)
    ensures multiset(r) == multiset(es) + multiset{e}
    ensures |r| == |es| + 1 && (r[0] == e || (|es| > 0 && r[0] == es[0]))
    decreases |es|
  {
    if |es| == 0 then [e]
    else if NameLe(e.name, es[0].name) then [e] + es
    else
      NameLeTotal(e.name, es[0].name);
      var rest := InsertByName(e, es[1..]);
      assert es == [es[0]] + es[1..];
      [es[0]] + rest
  }

  /** `sorted(files)`: the same entries, ordered by name. */
  function SortByName(es: seq<Entry>): (r: seq<Entry>)
    ensures SortedByName(r) && multiset(r) == multiset(es)
    decreases |es|
  {
    if |es| == 0 then []
    else
      assert es == [es[0]] + es[1..];
      InsertByName(es[0], SortByName(es[1..]))
  }

  function NameLine(e: Entry): string { Folder + " " + e.name + "\n" }
  function SizeLine(e: Entry): string { "   Size: " + FormatThousands(e.size) + " bytes\n" }
  function ModifiedLine(e: Entry): string { "   Modified: " + e.modified + "\n\n" }

  /** The block of one file: its name, its size with thousands separators, and its mtime. */
  function EntryBlock(e: Entry): string {
    NameLine(e) + SizeLine(e) + ModifiedLine(e)
  }

  /** The blocks of the regular files among `es`, in order; other entries add nothing. */
  function FilesText(es: seq<Entry>): string
    decreases |es|
  {
    if |es| == 0 then ""
    else FilesText(es[..|es| - 1]) + (if es[|es| - 1].isFile then EntryBlock(es[|es| - 1]) else "")
  }

  /** Appending the next entry's lines, when it is a file, extends the text by one entry. */
  lemma FilesTextStep(head: string, es: seq<Entry>, i: int)
    requires 0 <= i < |es|
    ensures head + FilesText(es[..i + 1])
            == if es[i].isFile then head + FilesText(es[..i]) + NameLine(es[i]) + SizeLine(es[i]) + ModifiedLine(es[i])
               else head + FilesText(es[..i])
  {
    var t := es[..i + 1];
    assert t[..|t| - 1] == es[..i] && t[|t| - 1] == es[i];
    var a := FilesText(es[..i]);
    if es[i].isFile {
      var e := es[i];
      assert head + (a + EntryBlock(e)) == head + a + EntryBlock(e);
      assert head + a + EntryBlock(e) == head + a + NameLine(e) + SizeLine(e) + ModifiedLine(e);
    } else {
      assert a + "" == a;
    }
  }

  /** A directory holding only sub-directories lists no blocks. */
  lemma {:induction false} FilesTextWithoutFiles(es: seq<Entry>)
    requires forall k :: 0 <= k < |es| ==> !es[k].isFile
    ensures FilesText(es) == ""
    decreases |es|
  {
    if |es| > 0 {
      FilesTextWithoutFiles(es[..|es| - 1]);
    }
  }

  const ListingHeader: string := "Generated Files:\n\n"
  const NoDirectoryText: string := "No output directory found. No files have been generated yet."
  const EmptyDirectoryText: string := "Output directory is empty. No files have been generated yet."
  const ListingError: string := "Error listing generated files: "

  /**
   * get_generated_files: a missing directory and an empty one each have their
   * own message; otherwise the header and one block per regular file, the
   * files in sorted order.
   */
  function GeneratedFilesText(listing: OutputListing): string {
    match listing
    case NoDirectory => NoDirectoryText
    case ListingRaised(e) => ListingError + e
    case Listed(es) =>
      if |es| == 0 then EmptyDirectoryText
      else ListingHeader + FilesText(SortByName(es))
  }

  /** get_generated_files, with the loop over the sorted entries that appends each file's block. */
  method GetGeneratedFiles(listing: OutputListing) returns (result: string)
    ensures result == GeneratedFilesText(listing)
  {
    match listing {
      case NoDirectory => return NoDirectoryText;
      case ListingRaised(e) => return ListingError + e;
      case Listed(files) =>
        if |files| == 0 {
          return EmptyDirectoryText;
        }
        var ordered := SortByName(files);
        result := ListingHeader;
        var i := 0;
        while i < |ordered|
          invariant 0 <= i <= |ordered|
          invariant result == ListingHeader + FilesText(ordered[..i])
        {
          var file := ordered[i];
          if file.isFile {
            result := result + NameLine(file);
            result := result + SizeLine(file);
            result := result + ModifiedLine(file);
          }
          FilesTextStep(ListingHeader, ordered, i);
          i := i + 1;
        }
        assert ordered[..|ordered|] == ordered;
    }
  }
}
