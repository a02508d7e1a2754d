// The two calls to external services that api/mcp.py and
// music_toolkit_server.py share apart from the output directory, which the
// Deployment selects (OutputDir): rendering a MusicXML file
// through the score-rendering service, and generating music from a humming
// recording through the music-generation service. Both report failure in
// their returned text, marked with ❌ or ⚠️, and never raise past themselves
// except where the source leaves a step outside its `try`.
module Services {
  import opened Wrappers
  import opened JsonValue
  import opened Text

  const VerovioApiUrl: string := "https://ykzou1214--verovio-api-fastapi-app.modal.run"
  const MusicGenApiUrl: string := "https://ykzou1214--musicgen-melody-api-inference-api.modal.run"

  /** A Python exception; the code tells ImportError apart from every other kind. */
  datatype Exc = ImportError(msg: string) | OtherError(msg: string)

  /** What a filesystem step (`mkdir`, `open` and `write`) did. */
  datatype Outcome = Done | Raised(error: Exc)

  /** What `response.json()` gives: a value, or the decoder's error message. */
  datatype Body = Parsed(value: Json) | Unparseable(error: string)

  /** What opening the upload and POSTing it gave: an exception, or a reply. */
  datatype HttpReply = Failed(error: string) | Replied(status: int, text: string, body: Body)

  /**
   * The externally visible steps of a tool, in the order they happen: a call to
   * the generation service, the generated audio written, a MusicXML file
   * written, a call to the rendering service.
   */
  datatype Effect = PostMusicGen | WriteAudio(path: string) | WriteScore(path: string) | PostVerovio

  /** A returned text together with the steps taken to produce it. */
  datatype Run = Run(text: string, trace: seq<Effect>)

  /** Where generated files go: `/tmp/output` on the serverless deployment, `output` when run locally. */
  datatype Deployment = Serverless | Local

  function OutputDir(d: Deployment): (dir: string)
    ensures |dir| > 0 && dir[0] != Cross[0] && dir[0] != Warning[0]
  {
    match d
    case Serverless => "/tmp/output"
    case Local => "output"
  }

  /** `output_dir / f"generated_{timestamp}{extension}"`: never a failure text, whatever the timestamp. */
  function GeneratedPath(d: Deployment, timestamp: string, extension: string): (p: string)
    ensures !IsFailureText(p)
  {
    var p := OutputDir(d) + "/generated_" + timestamp + extension;
    NotFailureText(p);
    p
  }

  function AudioPath(d: Deployment, timestamp: string): string {
    GeneratedPath(d, timestamp, ".wav")
  }

  function ScorePath(d: Deployment, timestamp: string): string {
    GeneratedPath(d, timestamp, ".musicxml")
  }

  /**
   * The outcomes of every external step one request may take: the clock
   * reading, the base64 encoder, the rendering call, and the output-directory
   * creation, call and file write of music generation.
   */
  datatype Backends = Backends(
    now: string,
    b64: string -> string,
    renderReply: HttpReply,
    genDir: Outcome,
    genReply: HttpReply,
    genWrite: Outcome)

  // ---------------------------------------------------------------------------
  // render_musicxml_via_verovio_api

  /** `response.json()["svg"]` followed by `svg.encode("utf-8")`: the SVG text, or the exception's message. */
  function SvgOf(body: Body): (r: Result<string, string>)
    ensures r.Ok? <==> body.Parsed? && body.value.JObj? && "svg" in body.value.fields && body.value.fields["svg"].JStr?
    ensures r.Ok? ==> r.value == body.value.fields["svg"].s
  {
    match body
    case Unparseable(e) => Err(e)
    case Parsed(JObj(m)) =>
      if "svg" !in m then Err("'svg'")
      else if m["svg"].JStr? then Ok(m["svg"].s)
      else Err("'" + TypeName(m["svg"]) + "' object has no attribute 'encode'")
    case Parsed(JArr(_)) => Err("list indices must be integers or slices, not str")
    case Parsed(JStr(_)) => Err("string indices must be integers, not 'str'")
    case Parsed(other) => Err("'" + TypeName(other) + "' object is not subscriptable")
  }

  const SvgHtmlHead: string :=
    "\n" + "        <div style=\"background-color: white; padding: 10px; border-radius: 8px;\">\n            <img src=\"data:image/svg+xml;base64,"
  const SvgHtmlTail: string :=
    "\" style=\"width:100%; max-height:600px;\" />\n        </div>\n        "

  /** The HTML fragment that shows a base64-encoded SVG image; it embeds the encoding verbatim. */
  function SvgHtml(encoded: string): (html: string)
    ensures |html| == |SvgHtmlHead| + |encoded| + |SvgHtmlTail|
    ensures html[|SvgHtmlHead|..|SvgHtmlHead| + |encoded|] == encoded
    ensures StartsWith(html, SvgHtmlHead) && !IsFailureText(html)
  {
    var html := SvgHtmlHead + encoded + SvgHtmlTail;
    assert html[|SvgHtmlHead|..|SvgHtmlHead| + |encoded|] == encoded;
    StartsWithConcat(SvgHtmlHead, encoded + SvgHtmlTail);
    assert html == SvgHtmlHead + (encoded + SvgHtmlTail);
    assert html[0] == SvgHtmlHead[0] == '\n';
    NotFailureText(html);
    html
  }

  /**
   * render_musicxml_via_verovio_api: an HTML fragment when the service answers
   * 200 with a JSON object whose "svg" is a string, otherwise a ❌ or ⚠️ message.
   */
  function Render(reply: HttpReply, b64: string -> string): (r: Run)
    ensures IsFailureText(r.text) <==> !(reply.Replied? && reply.status == 200 && SvgOf(reply.body).Ok?)
    ensures !IsFailureText(r.text) ==> r.text == SvgHtml(b64(SvgOf(reply.body).value))
    ensures reply.Failed? ==> r.text == Cross + " Verovio API call failed: " + reply.error
    ensures reply.Replied? && reply.status != 200 ==>
              r.text == Cross + " Verovio API error " + IntToString(reply.status) + ": " + reply.text
    ensures reply.Replied? && reply.status == 200 && SvgOf(reply.body).Err? ==>
              r.text == Warning + " Failed to parse SVG: " + SvgOf(reply.body).error
    ensures r.trace == [PostVerovio]
  {
    if VerovioApiUrl == "" then Run(Cross + " VEROVIO_API_URL is not configured", [])
    else
      var text :=
        match reply
        case Failed(e) =>
          (CrossIsFailure(" Verovio API call failed: " + e);
           Cross + " Verovio API call failed: " + e)
        case Replied(status, body, json) =>
          if status != 200 then
            CrossIsFailure(" Verovio API error " + IntToString(status) + ": " + body);
            Cross + " Verovio API error " + IntToString(status) + ": " + body
          else
            match SvgOf(json)
            case Ok(svg) => SvgHtml(b64(svg))
            case Err(e) =>
              (WarningIsFailure(" Failed to parse SVG: " + e);
               Warning + " Failed to parse SVG: " + e);
      Run(text, [PostVerovio])
  }

  // ---------------------------------------------------------------------------
  // generate_music_from_hum

  /**
   * generate_music_from_hum: the path of the generated audio, or a ❌ message.
   * Creating the output directory happens outside the function's `try`, so its
   * exception escapes (the Err case). A non-200 status returns before anything
   * is written.
   */
  function GenerateFromHum(d: Deployment, now: string, dir: Outcome, reply: HttpReply, write: Outcome): Result<Run, Exc> {
    if MusicGenApiUrl == "" then Ok(Run(Cross + " MUSICGEN_API_URL is not configured.", []))
    else if dir.Raised? then Err(dir.error)
    else
      var path := AudioPath(d, now);
      match reply
      case Failed(e) => Ok(Run(Cross + " Music generation failed: " + e, [PostMusicGen]))
      case Replied(status, body, _) =>
        if status != 200 then Ok(Run(Cross + " API error " + IntToString(status) + ": " + body, [PostMusicGen]))
        else if write.Raised? then Ok(Run(Cross + " Music generation failed: " + write.error.msg, [PostMusicGen]))
        else Ok(Run(path, [PostMusicGen, WriteAudio(path)]))
  }

  /**
   * Only the directory creation raises. Otherwise the result is the audio path,
   * after one call and one write, or a ❌ message, after the call alone.
   */
  lemma GenerateFromHumOutcomes(d: Deployment, now: string, dir: Outcome, reply: HttpReply, write: Outcome)
    ensures var r := GenerateFromHum(d, now, dir, reply, write);
            && (r.Err? <==> dir.Raised?)
            && (r.Err? ==> r.error == dir.error)
    ensures var r := GenerateFromHum(d, now, dir, reply, write);
            r.Ok? && reply.Replied? && reply.status != 200 ==>
              r.value == Run(Cross + " API error " + IntToString(reply.status) + ": " + reply.text, [PostMusicGen])
    ensures var r := GenerateFromHum(d, now, dir, reply, write);
            r.Ok? && reply.Failed? ==> r.value == Run(Cross + " Music generation failed: " + reply.error, [PostMusicGen])
    ensures var r := GenerateFromHum(d, now, dir, reply, write);
            r.Ok? ==> (StartsWith(r.value.text, Cross) <==> !(reply.Replied? && reply.status == 200 && write.Done?))
    ensures var r := GenerateFromHum(d, now, dir, reply, write);
            r.Ok? && !StartsWith(r.value.text, Cross) ==>
              r.value.text == AudioPath(d, now) && r.value.trace == [PostMusicGen, WriteAudio(AudioPath(d, now))]
    ensures var r := GenerateFromHum(d, now, dir, reply, write);
            r.Ok? && StartsWith(r.value.text, Cross) ==> r.value.trace == [PostMusicGen]
  {
    if dir.Done? {
      match reply
      case Failed(e) => CrossIsFailure(" Music generation failed: " + e);
      case Replied(status, body, _) =>
        if status != 200 {
          CrossIsFailure(" API error " + IntToString(status) + ": " + body);
        } else if write.Raised? {
          CrossIsFailure(" Music generation failed: " + write.error.msg);
        }
    }
  }
}
