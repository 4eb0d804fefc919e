/**
 * The wrapper around the viewer (components/AudioVisualizerWrapper.tsx):
 * it turns the backend's relative resource paths into absolute URLs,
 * assembles the viewer's settings, and checks that every resource can be
 * fetched before it renders the viewer.
 */
module VisualizerWrapper {
  import opened Wrappers
  import AudioPlayback

  const ApiBase: string := "http://localhost:5000"

  predicate StartsWith(s: string, prefix: string) {
    |prefix| <= |s| && s[..|prefix|] == prefix
  }

  /** `s.includes(t)`. */
  predicate Contains(s: string, t: string)
    decreases |s|
  {
    StartsWith(s, t) || (|s| > 0 && Contains(s[1..], t))
  }

  /** `s.replace(/^\/+/, '')`: drop the leading run of slashes. */
  function StripLeadingSlashes(s: string): (r: string)
    ensures |r| <= |s| && s == s[..|s| - |r|] + r
    ensures forall i :: 0 <= i < |s| - |r| ==> s[i] == '/'
    ensures r == [] || r[0] != '/'
  {
    if s != [] && s[0] == '/' then StripLeadingSlashes(s[1..]) else s
  }

  /** No two slashes in a row. */
  predicate NoDoubleSlash(s: string) {
    forall i :: 0 <= i < |s| - 1 ==> !(s[i] == '/' && s[i + 1] == '/')
  }

  /** `s` with its slashes removed: what collapsing slash runs must keep. */
  function WithoutSlashes(s: string): string {
    if s == [] then [] else (if s[0] == '/' then [] else [s[0]]) + WithoutSlashes(s[1..])
  }

  /** `s.replace(/\/+/g, '/')`: every run of slashes becomes one. */
  function CollapseSlashes(s: string): (r: string)
    ensures |r| <= |s|
    ensures s == [] <==> r == []
    ensures s != [] ==> r[0] == s[0]
  {
    if |s| >= 2 && s[0] == '/' && s[1] == '/' then CollapseSlashes(s[1..])
    else if s == [] then []
    else [s[0]] + CollapseSlashes(s[1..])
  }

  /** The cleaned path: no leading slash, no slash runs. */
  function Clean(url: string): string {
    CollapseSlashes(StripLeadingSlashes(url))
  }

  /** `getFullUrl(url)`; None stands for `undefined` or `null`. */
  function GetFullUrl(url: Option<string>): string {
    if url.None? || url.value == "" then ""
    else if StartsWith(url.value, "http") then url.value
    else
      var clean := Clean(url.value);
      if StartsWith(clean, "api/") then ApiBase + "/" + clean
      else if Contains(clean, "downloads/") then ApiBase + "/api/audio/" + clean
      else ApiBase + "/api/audio/downloads/" + clean
  }

  /** The stem locators the backend reports; None is a missing stem. */
  datatype StemData = StemData(drums: Option<string>, bass: Option<string>, other: Option<string>, vocals: Option<string>)

  /** The settings handed to the viewer. */
  datatype Settings = Settings(audio: AudioPlayback.Entries, midi: string, json: string, height: int, width: int)

  const ViewerHeight: int := 600
  const ViewerWidth: int := 810

  /** `stemData?.x ? getFullUrl(stemData.x) : ''`. */
  function StemUrl(stem: Option<string>): string {
    if stem.Some? && stem.value != "" then GetFullUrl(stem) else ""
  }

  /** `prepareSettings()`: None is the `null` it returns when there is nothing to show yet. */
  function PrepareSettings(stemData: Option<StemData>, midiUrl: Option<string>, jsonUrl: Option<string>): Option<Settings> {
    if stemData.None? || midiUrl.None? || midiUrl.value == "" then None
    else
      var d := stemData.value;
      Some(Settings(
        [("drums", StemUrl(d.drums)), ("bass", StemUrl(d.bass)), ("other", StemUrl(d.other)), ("vocals", StemUrl(d.vocals))],
        GetFullUrl(midiUrl), GetFullUrl(jsonUrl), ViewerHeight, ViewerWidth))
  }

  /** `Object.values(settings.audio).filter(url => url)`: the audio URLs that are checked. */
  function AudioToCheck(audio: AudioPlayback.Entries): (r: seq<string>)
    ensures forall u :: u in r ==> u != ""
    ensures forall i :: 0 <= i < |audio| && audio[i].1 != "" ==> audio[i].1 in r
    ensures forall u :: u in r ==> exists i :: 0 <= i < |audio| && audio[i].1 == u
  {
    if audio == [] then []
    else
      var rest := AudioToCheck(audio[1..]);
      assert forall u :: u in rest ==> exists i :: 0 <= i < |audio| && audio[i].1 == u by {
        forall u | u in rest ensures exists i :: 0 <= i < |audio| && audio[i].1 == u {
          var j :| 0 <= j < |audio| - 1 && audio[1..][j].1 == u;
          assert audio[j + 1].1 == u;
        }
      }
      if audio[0].1 != "" then [audio[0].1] + rest else rest
  }

  // ---------------------------------------------------------------------
  // Properties of the URL functions
  // ---------------------------------------------------------------------

  lemma {:induction false} CollapseProps(s: string)
    ensures NoDoubleSlash(CollapseSlashes(s))
    ensures WithoutSlashes(CollapseSlashes(s)) == WithoutSlashes(s)
    ensures NoDoubleSlash(s) ==> CollapseSlashes(s) == s
    decreases |s|
  {
    if s != [] {
      CollapseProps(s[1..]);
      if |s| >= 2 && s[0] == '/' && s[1] == '/' {
      } else {
        var r := CollapseSlashes(s[1..]);
        assert CollapseSlashes(s) == [s[0]] + r;
        if NoDoubleSlash(s) {
          TailNoDoubleSlash(s);
        }
        ConsNoDoubleSlash(s[0], r);
        ConsWithoutSlashes(s[0], r);
      }
    }
  }

  lemma TailNoDoubleSlash(s: string)
    requires s != [] && NoDoubleSlash(s)
    ensures NoDoubleSlash(s[1..])
  {
    forall i | 0 <= i < |s[1..]| - 1 ensures !(s[1..][i] == '/' && s[1..][i + 1] == '/') {
      assert s[1..][i] == s[i + 1] && s[1..][i + 1] == s[i + 2];
    }
  }

  lemma ConsNoDoubleSlash(c: char, r: string)
    requires NoDoubleSlash(r) && !(c == '/' && r != [] && r[0] == '/')
    ensures NoDoubleSlash([c] + r)
  {
    forall i | 0 <= i < |r| ensures !(([c] + r)[i] == '/' && ([c] + r)[i + 1] == '/') {
      if i > 0 {
        assert ([c] + r)[i] == r[i - 1] && ([c] + r)[i + 1] == r[i];
      } else {
        assert ([c] + r)[1] == r[0];
      }
    }
  }

  lemma ConsWithoutSlashes(c: char, r: string)
    ensures WithoutSlashes([c] + r) == (if c == '/' then [] else [c]) + WithoutSlashes(r)
  {
    assert ([c] + r)[1..] == r;
  }

  /** `getFullUrl` returns '' exactly for a missing or empty URL, and an 'http…' URL unchanged. */
  lemma EmptyAndAbsoluteUrls(url: Option<string>)
    ensures GetFullUrl(url) == "" <==> url.None? || url.value == ""
    ensures url.Some? && url.value != "" && StartsWith(url.value, "http") ==> GetFullUrl(url) == url.value
  {
  }

  /**
   * Any other URL is routed by its cleaned path: 'api/…' straight under the
   * base, a path containing 'downloads/' under '/api/audio/', anything else
   * under '/api/audio/downloads/'.
   */
  lemma RelativeUrlRouting(url: string)
    requires url != "" && !StartsWith(url, "http")
    ensures StartsWith(GetFullUrl(Some(url)), ApiBase + "/")
    ensures StartsWith(Clean(url), "api/") ==> GetFullUrl(Some(url)) == ApiBase + "/" + Clean(url)
    ensures !StartsWith(Clean(url), "api/") && Contains(Clean(url), "downloads/") ==>
      GetFullUrl(Some(url)) == ApiBase + "/api/audio/" + Clean(url)
    ensures !StartsWith(Clean(url), "api/") && !Contains(Clean(url), "downloads/") ==>
      GetFullUrl(Some(url)) == ApiBase + "/api/audio/downloads/" + Clean(url)
  {
    var r, b := GetFullUrl(Some(url)), ApiBase + "/";
    assert r[..|b|] == b;
  }

  /**
   * Cleaning leaves no leading slash and no double slash, so the text
   * appended after the base ('/' + clean) has none either, and it keeps
   * everything of the input but its slashes.
   */
  lemma CleanedPath(url: string)
    ensures Clean(url) == [] || Clean(url)[0] != '/'
    ensures NoDoubleSlash("/" + Clean(url))
    ensures WithoutSlashes(Clean(url)) == WithoutSlashes(url)
  {
    var stripped := StripLeadingSlashes(url);
    CollapseProps(stripped);
    assert url[|url| - |stripped|..] == stripped;
    SlashPrefixVanishes(url, |url| - |stripped|);
    SlashBefore(Clean(url));
  }

  /** A slash before a text without slash runs or a leading slash makes no slash run. */
  lemma SlashBefore(clean: string)
    requires NoDoubleSlash(clean) && (clean == [] || clean[0] != '/')
    ensures NoDoubleSlash("/" + clean)
  {
    forall i | 0 <= i < |clean| ensures !(("/" + clean)[i] == '/' && ("/" + clean)[i + 1] == '/') {
      if i > 0 {
        assert ("/" + clean)[i] == clean[i - 1] && ("/" + clean)[i + 1] == clean[i];
      }
    }
  }

  /** Leading slashes contribute nothing once slashes are removed. */
  lemma {:induction false} SlashPrefixVanishes(s: string, k: nat)
    requires k <= |s| && forall i :: 0 <= i < k ==> s[i] == '/'
    ensures WithoutSlashes(s) == WithoutSlashes(s[k..])
  {
    if k > 0 {
      SlashPrefixVanishes(s[1..], k - 1);
      assert s[1..][k - 1..] == s[k..];
    }
  }

  /** `getFullUrl` is idempotent: every non-empty result starts with 'http', which it returns unchanged. */
  lemma FullUrlIsIdempotent(url: Option<string>)
    ensures GetFullUrl(url) != "" ==> StartsWith(GetFullUrl(url), "http")
    ensures GetFullUrl(Some(GetFullUrl(url))) == GetFullUrl(url)
  {
    var r := GetFullUrl(url);
    if url.Some? && url.value != "" && !StartsWith(url.value, "http") {
      assert r[..4] == "http";
    }
  }

  /**
   * `prepareSettings` is null without stem data or a MIDI URL; otherwise the
   * audio entries are exactly drums, bass, other and vocals, each '' for a
   * missing stem and its full URL otherwise, at 600 by 810.
   */
  lemma SettingsShape(stemData: Option<StemData>, midiUrl: Option<string>, jsonUrl: Option<string>)
    ensures PrepareSettings(stemData, midiUrl, jsonUrl).None? <==> stemData.None? || midiUrl.None? || midiUrl.value == ""
    ensures PrepareSettings(stemData, midiUrl, jsonUrl).Some? ==>
      var s, d := PrepareSettings(stemData, midiUrl, jsonUrl).value, stemData.value;
      && s.audio == [("drums", GetFullUrl(d.drums)), ("bass", GetFullUrl(d.bass)),
                     ("other", GetFullUrl(d.other)), ("vocals", GetFullUrl(d.vocals))]
      && AudioPlayback.DistinctKeys(s.audio)
      && s.midi == GetFullUrl(midiUrl) && s.midi != "" && s.json == GetFullUrl(jsonUrl)
      && s.height == 600 && s.width == 810
  {
    if PrepareSettings(stemData, midiUrl, jsonUrl).Some? {
      var d := stemData.value;
      StemUrlIsFullUrl(d.drums);
      StemUrlIsFullUrl(d.bass);
      StemUrlIsFullUrl(d.other);
      StemUrlIsFullUrl(d.vocals);
      StemKeysDistinct(PrepareSettings(stemData, midiUrl, jsonUrl).value.audio);
      EmptyAndAbsoluteUrls(midiUrl);
    }
  }

  lemma StemKeysDistinct(audio: AudioPlayback.Entries)
    requires |audio| == 4
    requires audio[0].0 == "drums" && audio[1].0 == "bass" && audio[2].0 == "other" && audio[3].0 == "vocals"
    ensures AudioPlayback.DistinctKeys(audio)
  {
  }

  /** The guard in front of each stem changes nothing: `getFullUrl` already maps a falsy URL to ''. */
  lemma StemUrlIsFullUrl(stem: Option<string>)
    ensures StemUrl(stem) == GetFullUrl(stem)
  {
  }

  // ---------------------------------------------------------------------
  // Validation
  // ---------------------------------------------------------------------

  /** What a `fetch` settles to. */
  datatype Response = Ok | NotOk(status: int) | Unreachable

  datatype ValidationError = MidiNotAccessible(status: int) | AudioNotFound(url: string, status: int) | FetchFailed

  function ErrorOf(r: Response, url: string, isMidi: bool): ValidationError
    requires !r.Ok?
  {
    if r.Unreachable? then FetchFailed
    else if isMidi then MidiNotAccessible(r.status) else AudioNotFound(url, r.status)
  }

  /** The first audio URL, in order, whose HEAD request fails. */
  function FirstFailure(urls: seq<string>, head: string -> Response): Option<ValidationError> {
    if urls == [] then None
    else if !head(urls[0]).Ok? then Some(ErrorOf(head(urls[0]), urls[0], false))
    else FirstFailure(urls[1..], head)
  }

  /** The outcome of `validateResources`: the MIDI check first, then the audio checks. */
  function Validation(s: Settings, midi: Response, head: string -> Response): Option<ValidationError> {
    if !midi.Ok? then Some(ErrorOf(midi, s.midi, true)) else FirstFailure(AudioToCheck(s.audio), head)
  }

  /** The settings are validated exactly when the MIDI file and every non-empty audio URL respond ok. */
  lemma {:induction false} ValidationPassesIffAllOk(s: Settings, midi: Response, head: string -> Response)
    ensures Validation(s, midi, head).None? <==>
      midi.Ok? && forall i :: 0 <= i < |s.audio| && s.audio[i].1 != "" ==> head(s.audio[i].1).Ok?
  {
    FirstFailureNone(AudioToCheck(s.audio), head);
  }

  lemma {:induction false} FirstFailureNone(urls: seq<string>, head: string -> Response)
    ensures FirstFailure(urls, head).None? <==> forall u :: u in urls ==> head(u).Ok?
  {
    if urls != [] {
      FirstFailureNone(urls[1..], head);
      assert forall u :: u in urls <==> u == urls[0] || u in urls[1..];
    }
  }

  /** An empty URL is never fetched: a missing stem cannot fail the validation. */
  lemma MissingStemsAreNotChecked(s: Settings, midi: Response, head: string -> Response, head2: string -> Response)
    requires forall u :: u != "" ==> head(u) == head2(u)
    ensures Validation(s, midi, head) == Validation(s, midi, head2)
  {
    FirstFailureAgrees(AudioToCheck(s.audio), head, head2);
  }

  lemma {:induction false} FirstFailureAgrees(urls: seq<string>, head: string -> Response, head2: string -> Response)
    requires forall u :: u in urls ==> u != "" && head(u) == head2(u)
    ensures FirstFailure(urls, head) == FirstFailure(urls, head2)
  {
    if urls != [] {
      assert forall u :: u in urls[1..] ==> u in urls;
      FirstFailureAgrees(urls[1..], head, head2);
    }
  }

  /** What the wrapper renders. */
  datatype View = Waiting | Spinner | ErrorMessage(error: ValidationError) | Preparing | ShowViewer(settings: Settings)

  function Render(stemData: Option<StemData>, midiUrl: Option<string>, isLoading: bool,
                  error: Option<ValidationError>, validated: Option<Settings>): View {
    if stemData.None? || midiUrl.None? || midiUrl.value == "" then Waiting
    else if isLoading then Spinner
    else if error.Some? then ErrorMessage(error.value)
    else if validated.None? then Preparing
    else ShowViewer(validated.value)
  }

  /** The component's state hooks. */
  class Wrapper {
    var isLoading: bool
    var error: Option<ValidationError>
    var validated: Option<Settings>

    constructor ()
      ensures !isLoading && error == None && validated == None
    {
      isLoading := false;
      error := None;
      validated := None;
    }

    /**
     * The effect run when the stem data or the MIDI URL change, given how
     * the MIDI fetch and each HEAD request settle.
     */
    method Effect(stemData: Option<StemData>, midiUrl: Option<string>, jsonUrl: Option<string>,
                  midi: Response, head: string -> Response)
      modifies this
      ensures PrepareSettings(stemData, midiUrl, jsonUrl).None? ==>
        isLoading == old(isLoading) && error == old(error) && validated == old(validated)
      ensures PrepareSettings(stemData, midiUrl, jsonUrl).Some? ==>
        var s := PrepareSettings(stemData, midiUrl, jsonUrl).value;
        && !isLoading && error == Validation(s, midi, head)
        && validated == (if error.None? then Some(s) else old(validated))
    {
      var settings := PrepareSettings(stemData, midiUrl, jsonUrl);
      if settings.None? {
        return;
      }
      ValidateResources(settings.value, midi, head);
    }

    /** `validateResources`. */
    method ValidateResources(s: Settings, midi: Response, head: string -> Response)
      modifies this
      ensures !isLoading && error == Validation(s, midi, head)
      ensures validated == if error.None? then Some(s) else old(validated)
    {
      isLoading := true;
      error := None;
      if !midi.Ok? {
        error := Some(ErrorOf(midi, s.midi, true));
        isLoading := false;
        return;
      }
      var urls := AudioToCheck(s.audio);
      var i := 0;
      while i < |urls|
        invariant 0 <= i <= |urls|
        invariant FirstFailure(urls, head) == FirstFailure(urls[i..], head)
        invariant error == None && isLoading && validated == old(validated)
      {
        assert urls[i..][1..] == urls[i + 1..];
        if !head(urls[i]).Ok? {
          error := Some(ErrorOf(head(urls[i]), urls[i], false));
          isLoading := false;
          return;
        }
        i := i + 1;
      }
      validated := Some(s);
      isLoading := false;
    }
  }

  /**
   * Once validation has passed for the current inputs, the viewer is shown
   * with those settings; once it has failed, the error is shown, whatever
   * settings an earlier pass left stored.
   */
  lemma ValidatedShowsViewer(stemData: Option<StemData>, midiUrl: Option<string>, jsonUrl: Option<string>,
                             midi: Response, head: string -> Response)
    requires PrepareSettings(stemData, midiUrl, jsonUrl).Some?
    ensures var s := PrepareSettings(stemData, midiUrl, jsonUrl).value;
      var e := Validation(s, midi, head);
      && (e.None? ==> Render(stemData, midiUrl, false, e, Some(s)) == ShowViewer(s))
      && (e.Some? ==> forall v: Option<Settings> :: Render(stemData, midiUrl, false, e, v) == ErrorMessage(e.value))
  {
  }
}
